/** The contents of a VMCS: a record for each group of fields, and access to its
    members by field, as VMREAD and VMWRITE have it. */
module VmcsRegions {
  import opened Words
  import opened CpuDefs

  datatype Limits = Limits(
    es: Word, cs: Word, ss: Word, ds: Word, fs: Word, gs: Word, ldtr: Word, tr: Word, gdtr: Word, idtr: Word)

  datatype Rights = Rights(
    es: Word, cs: Word, ss: Word, ds: Word, fs: Word, gs: Word, ldtr: Word, tr: Word)

  datatype Bases = Bases(
    es: Word, cs: Word, ss: Word, ds: Word, fs: Word, gs: Word, ldtr: Word, tr: Word, gdtr: Word, idtr: Word)

  datatype Guest16State = Guest16State(
    es: Word, cs: Word, ss: Word, ds: Word, fs: Word, gs: Word, ldtr: Word, tr: Word)

  datatype Guest64State = Guest64State(
    linkPtr: Word, debugctl: Word)

  datatype Guest32State = Guest32State(
    limits: Limits, rights: Rights, interruptibilityState: Word, activityState: Word, smbase: Word,
    sysenterCs: Word)

  datatype GuestNaturalState = GuestNaturalState(
    cr0: Word, cr3: Word, cr4: Word, bases: Bases, dr7: Word, rsp: Word, rip: Word, rflags: Word,
    pendingDbgException: Word, sysenterEsp: Word, sysenterEip: Word)

  datatype Host16State = Host16State(
    es: Word, cs: Word, ss: Word, ds: Word, fs: Word, gs: Word, tr: Word)

  datatype Host32State = Host32State(
    sysenterCs: Word)

  datatype HostNaturalState = HostNaturalState(
    cr0: Word, cr3: Word, cr4: Word, fsBase: Word, gsBase: Word, trBase: Word, gdtrBase: Word,
    idtrBase: Word, sysenterEsp: Word, sysenterEip: Word, rsp: Word, rip: Word)

  datatype Control64State = Control64State(
    ioBitmapAAddr: Word, ioBitmapBAddr: Word, execVmcsPtr: Word, tscOffset: Word)

  datatype Control32State = Control32State(
    pinBasedVmCtls: Word, procBasedVmCtls: Word, exceptionBitmap: Word, pfEcodeMask: Word,
    pfEcodeMatch: Word, cr3TargetCnt: Word, vmexitCtls: Word, vmexitMsrStoreCnt: Word,
    vmexitMsrLoadCnt: Word, vmentryCtls: Word, vmentryMsrLoadCnt: Word, vmentryIntInfo: Word,
    vmentryEcode: Word, vmentryInstrLen: Word)

  datatype ControlNaturalState = ControlNaturalState(
    cr0GuestHostMask: Word, cr4GuestHostMask: Word, cr0ReadShadow: Word, cr4ReadShadow: Word,
    cr3TargetValue0: Word, cr3TargetValue1: Word, cr3TargetValue2: Word, cr3TargetValue3: Word)

  datatype Data32State = Data32State(
    vmInstructionError: Word, exitReason: Word)

  datatype Vmcs = Vmcs(
    guest16: Guest16State, guest64: Guest64State, guest32: Guest32State, guestNatural: GuestNaturalState,
    host16: Host16State, host32: Host32State, hostNatural: HostNaturalState,
    control64: Control64State, control32: Control32State, controlNatural: ControlNaturalState, data32: Data32State)

  /** The contents of a zeroed page. */
  const BLANK := Vmcs(
    Guest16State(ZERO, ZERO, ZERO, ZERO, ZERO, ZERO, ZERO, ZERO),
    Guest64State(ZERO, ZERO),
    Guest32State(Limits(ZERO, ZERO, ZERO, ZERO, ZERO, ZERO, ZERO, ZERO, ZERO, ZERO),
                 Rights(ZERO, ZERO, ZERO, ZERO, ZERO, ZERO, ZERO, ZERO), ZERO, ZERO, ZERO, ZERO),
    GuestNaturalState(ZERO, ZERO, ZERO, Bases(ZERO, ZERO, ZERO, ZERO, ZERO, ZERO, ZERO, ZERO, ZERO, ZERO),
                      ZERO, ZERO, ZERO, ZERO, ZERO, ZERO, ZERO),
    Host16State(ZERO, ZERO, ZERO, ZERO, ZERO, ZERO, ZERO),
    Host32State(ZERO),
    HostNaturalState(ZERO, ZERO, ZERO, ZERO, ZERO, ZERO, ZERO, ZERO, ZERO, ZERO, ZERO, ZERO),
    Control64State(ZERO, ZERO, ZERO, ZERO),
    Control32State(ZERO, ZERO, ZERO, ZERO, ZERO, ZERO, ZERO, ZERO, ZERO, ZERO, ZERO, ZERO, ZERO, ZERO),
    ControlNaturalState(ZERO, ZERO, ZERO, ZERO, ZERO, ZERO, ZERO, ZERO),
    Data32State(ZERO, ZERO))

  function GetGuest16(s: Guest16State, index: nat): Word {
    match index
    case 0 => s.es
    case 1 => s.cs
    case 2 => s.ss
    case 3 => s.ds
    case 4 => s.fs
    case 5 => s.gs
    case 6 => s.ldtr
    case 7 => s.tr
    case _ => ZERO
  }

  function PutGuest16(s: Guest16State, index: nat, x: Word): Guest16State {
    match index
    case 0 => s.(es := x)
    case 1 => s.(cs := x)
    case 2 => s.(ss := x)
    case 3 => s.(ds := x)
    case 4 => s.(fs := x)
    case 5 => s.(gs := x)
    case 6 => s.(ldtr := x)
    case 7 => s.(tr := x)
    case _ => s
  }

  function GetGuest64(s: Guest64State, index: nat): Word {
    match index
    case 0 => s.linkPtr
    case 1 => s.debugctl
    case _ => ZERO
  }

  function PutGuest64(s: Guest64State, index: nat, x: Word): Guest64State {
    match index
    case 0 => s.(linkPtr := x)
    case 1 => s.(debugctl := x)
    case _ => s
  }

  function GetLimits(s: Limits, index: nat): Word {
    match index
    case 0 => s.es
    case 1 => s.cs
    case 2 => s.ss
    case 3 => s.ds
    case 4 => s.fs
    case 5 => s.gs
    case 6 => s.ldtr
    case 7 => s.tr
    case 8 => s.gdtr
    case 9 => s.idtr
    case _ => ZERO
  }

  function PutLimits(s: Limits, index: nat, x: Word): Limits {
    match index
    case 0 => s.(es := x)
    case 1 => s.(cs := x)
    case 2 => s.(ss := x)
    case 3 => s.(ds := x)
    case 4 => s.(fs := x)
    case 5 => s.(gs := x)
    case 6 => s.(ldtr := x)
    case 7 => s.(tr := x)
    case 8 => s.(gdtr := x)
    case 9 => s.(idtr := x)
    case _ => s
  }

  function GetRights(s: Rights, index: nat): Word {
    match index
    case 10 => s.es
    case 11 => s.cs
    case 12 => s.ss
    case 13 => s.ds
    case 14 => s.fs
    case 15 => s.gs
    case 16 => s.ldtr
    case 17 => s.tr
    case _ => ZERO
  }

  function PutRights(s: Rights, index: nat, x: Word): Rights {
    match index
    case 10 => s.(es := x)
    case 11 => s.(cs := x)
    case 12 => s.(ss := x)
    case 13 => s.(ds := x)
    case 14 => s.(fs := x)
    case 15 => s.(gs := x)
    case 16 => s.(ldtr := x)
    case 17 => s.(tr := x)
    case _ => s
  }

  function GetGuest32(s: Guest32State, index: nat): Word {
    if 0 <= index < 10 then GetLimits(s.limits, index) else
    if 10 <= index < 18 then GetRights(s.rights, index) else
    match index
    case 18 => s.interruptibilityState
    case 19 => s.activityState
    case 20 => s.smbase
    case 21 => s.sysenterCs
    case _ => ZERO
  }

  function PutGuest32(s: Guest32State, index: nat, x: Word): Guest32State {
    if 0 <= index < 10 then s.(limits := PutLimits(s.limits, index, x)) else
    if 10 <= index < 18 then s.(rights := PutRights(s.rights, index, x)) else
    match index
    case 18 => s.(interruptibilityState := x)
    case 19 => s.(activityState := x)
    case 20 => s.(smbase := x)
    case 21 => s.(sysenterCs := x)
    case _ => s
  }

  function GetBases(s: Bases, index: nat): Word {
    match index
    case 3 => s.es
    case 4 => s.cs
    case 5 => s.ss
    case 6 => s.ds
    case 7 => s.fs
    case 8 => s.gs
    case 9 => s.ldtr
    case 10 => s.tr
    case 11 => s.gdtr
    case 12 => s.idtr
    case _ => ZERO
  }

  function PutBases(s: Bases, index: nat, x: Word): Bases {
    match index
    case 3 => s.(es := x)
    case 4 => s.(cs := x)
    case 5 => s.(ss := x)
    case 6 => s.(ds := x)
    case 7 => s.(fs := x)
    case 8 => s.(gs := x)
    case 9 => s.(ldtr := x)
    case 10 => s.(tr := x)
    case 11 => s.(gdtr := x)
    case 12 => s.(idtr := x)
    case _ => s
  }

  function GetGuestNatural(s: GuestNaturalState, index: nat): Word {
    if 3 <= index < 13 then GetBases(s.bases, index) else
    match index
    case 0 => s.cr0
    case 1 => s.cr3
    case 2 => s.cr4
    case 13 => s.dr7
    case 14 => s.rsp
    case 15 => s.rip
    case 16 => s.rflags
    case 17 => s.pendingDbgException
    case 18 => s.sysenterEsp
    case 19 => s.sysenterEip
    case _ => ZERO
  }

  function PutGuestNatural(s: GuestNaturalState, index: nat, x: Word): GuestNaturalState {
    if 3 <= index < 13 then s.(bases := PutBases(s.bases, index, x)) else
    match index
    case 0 => s.(cr0 := x)
    case 1 => s.(cr3 := x)
    case 2 => s.(cr4 := x)
    case 13 => s.(dr7 := x)
    case 14 => s.(rsp := x)
    case 15 => s.(rip := x)
    case 16 => s.(rflags := x)
    case 17 => s.(pendingDbgException := x)
    case 18 => s.(sysenterEsp := x)
    case 19 => s.(sysenterEip := x)
    case _ => s
  }

  function GetHost16(s: Host16State, index: nat): Word {
    match index
    case 0 => s.es
    case 1 => s.cs
    case 2 => s.ss
    case 3 => s.ds
    case 4 => s.fs
    case 5 => s.gs
    case 6 => s.tr
    case _ => ZERO
  }

  function PutHost16(s: Host16State, index: nat, x: Word): Host16State {
    match index
    case 0 => s.(es := x)
    case 1 => s.(cs := x)
    case 2 => s.(ss := x)
    case 3 => s.(ds := x)
    case 4 => s.(fs := x)
    case 5 => s.(gs := x)
    case 6 => s.(tr := x)
    case _ => s
  }

  function GetHost32(s: Host32State, index: nat): Word {
    match index
    case 0 => s.sysenterCs
    case _ => ZERO
  }

  function PutHost32(s: Host32State, index: nat, x: Word): Host32State {
    match index
    case 0 => s.(sysenterCs := x)
    case _ => s
  }

  function GetHostNatural(s: HostNaturalState, index: nat): Word {
    match index
    case 0 => s.cr0
    case 1 => s.cr3
    case 2 => s.cr4
    case 3 => s.fsBase
    case 4 => s.gsBase
    case 5 => s.trBase
    case 6 => s.gdtrBase
    case 7 => s.idtrBase
    case 8 => s.sysenterEsp
    case 9 => s.sysenterEip
    case 10 => s.rsp
    case 11 => s.rip
    case _ => ZERO
  }

  function PutHostNatural(s: HostNaturalState, index: nat, x: Word): HostNaturalState {
    match index
    case 0 => s.(cr0 := x)
    case 1 => s.(cr3 := x)
    case 2 => s.(cr4 := x)
    case 3 => s.(fsBase := x)
    case 4 => s.(gsBase := x)
    case 5 => s.(trBase := x)
    case 6 => s.(gdtrBase := x)
    case 7 => s.(idtrBase := x)
    case 8 => s.(sysenterEsp := x)
    case 9 => s.(sysenterEip := x)
    case 10 => s.(rsp := x)
    case 11 => s.(rip := x)
    case _ => s
  }

  function GetControl64(s: Control64State, index: nat): Word {
    match index
    case 0 => s.ioBitmapAAddr
    case 1 => s.ioBitmapBAddr
    case 6 => s.execVmcsPtr
    case 8 => s.tscOffset
    case _ => ZERO
  }

  function PutControl64(s: Control64State, index: nat, x: Word): Control64State {
    match index
    case 0 => s.(ioBitmapAAddr := x)
    case 1 => s.(ioBitmapBAddr := x)
    case 6 => s.(execVmcsPtr := x)
    case 8 => s.(tscOffset := x)
    case _ => s
  }

  function GetControl32(s: Control32State, index: nat): Word {
    match index
    case 0 => s.pinBasedVmCtls
    case 1 => s.procBasedVmCtls
    case 2 => s.exceptionBitmap
    case 3 => s.pfEcodeMask
    case 4 => s.pfEcodeMatch
    case 5 => s.cr3TargetCnt
    case 6 => s.vmexitCtls
    case 7 => s.vmexitMsrStoreCnt
    case 8 => s.vmexitMsrLoadCnt
    case 9 => s.vmentryCtls
    case 10 => s.vmentryMsrLoadCnt
    case 11 => s.vmentryIntInfo
    case 12 => s.vmentryEcode
    case 13 => s.vmentryInstrLen
    case _ => ZERO
  }

  function PutControl32(s: Control32State, index: nat, x: Word): Control32State {
    match index
    case 0 => s.(pinBasedVmCtls := x)
    case 1 => s.(procBasedVmCtls := x)
    case 2 => s.(exceptionBitmap := x)
    case 3 => s.(pfEcodeMask := x)
    case 4 => s.(pfEcodeMatch := x)
    case 5 => s.(cr3TargetCnt := x)
    case 6 => s.(vmexitCtls := x)
    case 7 => s.(vmexitMsrStoreCnt := x)
    case 8 => s.(vmexitMsrLoadCnt := x)
    case 9 => s.(vmentryCtls := x)
    case 10 => s.(vmentryMsrLoadCnt := x)
    case 11 => s.(vmentryIntInfo := x)
    case 12 => s.(vmentryEcode := x)
    case 13 => s.(vmentryInstrLen := x)
    case _ => s
  }

  function GetControlNatural(s: ControlNaturalState, index: nat): Word {
    match index
    case 0 => s.cr0GuestHostMask
    case 1 => s.cr4GuestHostMask
    case 2 => s.cr0ReadShadow
    case 3 => s.cr4ReadShadow
    case 4 => s.cr3TargetValue0
    case 5 => s.cr3TargetValue1
    case 6 => s.cr3TargetValue2
    case 7 => s.cr3TargetValue3
    case _ => ZERO
  }

  function PutControlNatural(s: ControlNaturalState, index: nat, x: Word): ControlNaturalState {
    match index
    case 0 => s.(cr0GuestHostMask := x)
    case 1 => s.(cr4GuestHostMask := x)
    case 2 => s.(cr0ReadShadow := x)
    case 3 => s.(cr4ReadShadow := x)
    case 4 => s.(cr3TargetValue0 := x)
    case 5 => s.(cr3TargetValue1 := x)
    case 6 => s.(cr3TargetValue2 := x)
    case 7 => s.(cr3TargetValue3 := x)
    case _ => s
  }

  function GetData32(s: Data32State, index: nat): Word {
    match index
    case 0 => s.vmInstructionError
    case 1 => s.exitReason
    case _ => ZERO
  }

  function PutData32(s: Data32State, index: nat, x: Word): Data32State {
    match index
    case 0 => s.(vmInstructionError := x)
    case 1 => s.(exitReason := x)
    case _ => s
  }

  function Get(v: Vmcs, f: Field): Word {
    match f.group
    case Guest16 => GetGuest16(v.guest16, f.index)
    case Guest64 => GetGuest64(v.guest64, f.index)
    case Guest32 => GetGuest32(v.guest32, f.index)
    case GuestNatural => GetGuestNatural(v.guestNatural, f.index)
    case Host16 => GetHost16(v.host16, f.index)
    case Host32 => GetHost32(v.host32, f.index)
    case HostNatural => GetHostNatural(v.hostNatural, f.index)
    case Control64 => GetControl64(v.control64, f.index)
    case Control32 => GetControl32(v.control32, f.index)
    case ControlNatural => GetControlNatural(v.controlNatural, f.index)
    case Data32 => GetData32(v.data32, f.index)
  }

  function Put(v: Vmcs, f: Field, x: Word): Vmcs {
    match f.group
    case Guest16 => v.(guest16 := PutGuest16(v.guest16, f.index, x))
    case Guest64 => v.(guest64 := PutGuest64(v.guest64, f.index, x))
    case Guest32 => v.(guest32 := PutGuest32(v.guest32, f.index, x))
    case GuestNatural => v.(guestNatural := PutGuestNatural(v.guestNatural, f.index, x))
    case Host16 => v.(host16 := PutHost16(v.host16, f.index, x))
    case Host32 => v.(host32 := PutHost32(v.host32, f.index, x))
    case HostNatural => v.(hostNatural := PutHostNatural(v.hostNatural, f.index, x))
    case Control64 => v.(control64 := PutControl64(v.control64, f.index, x))
    case Control32 => v.(control32 := PutControl32(v.control32, f.index, x))
    case ControlNatural => v.(controlNatural := PutControlNatural(v.controlNatural, f.index, x))
    case Data32 => v.(data32 := PutData32(v.data32, f.index, x))
  }
}
