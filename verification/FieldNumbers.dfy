/** The fields of a VMCS by the numbers that vmm/cpu-defs.h gives them: what VMREAD returns for
    each number, and what a VM exit and a VM entry load. */
module FieldNumbers {
  import opened Words
  import opened CpuDefs
  import opened VmcsRegions
  import opened Processor

  // ----------------------------------------------------------- field numbers

  lemma Guest16Numbers()
    ensures FieldAt(Word(0x0800)) == Field(Guest16, 0) && FieldAt(Word(0x0802)) == Field(Guest16, 1)
    ensures FieldAt(Word(0x0804)) == Field(Guest16, 2) && FieldAt(Word(0x0806)) == Field(Guest16, 3)
    ensures FieldAt(Word(0x0808)) == Field(Guest16, 4) && FieldAt(Word(0x080a)) == Field(Guest16, 5)
    ensures FieldAt(Word(0x080c)) == Field(Guest16, 6) && FieldAt(Word(0x080e)) == Field(Guest16, 7)
  {
  }

  lemma Host16Numbers()
    ensures FieldAt(Word(0x0c00)) == Field(Host16, 0) && FieldAt(Word(0x0c02)) == Field(Host16, 1)
    ensures FieldAt(Word(0x0c04)) == Field(Host16, 2) && FieldAt(Word(0x0c06)) == Field(Host16, 3)
    ensures FieldAt(Word(0x0c08)) == Field(Host16, 4) && FieldAt(Word(0x0c0a)) == Field(Host16, 5)
    ensures FieldAt(Word(0x0c0c)) == Field(Host16, 6)
  {
  }

  lemma WideNumbers()
    ensures FieldAt(Word(0x2000)) == Field(Control64, 0) && FieldAt(Word(0x2002)) == Field(Control64, 1)
    ensures FieldAt(Word(0x200c)) == Field(Control64, 6) && FieldAt(Word(0x2010)) == Field(Control64, 8)
    ensures FieldAt(Word(0x2800)) == Field(Guest64, 0) && FieldAt(Word(0x2802)) == Field(Guest64, 1)
    ensures FieldAt(Word(0x4c00)) == Field(Host32, 0)
    ensures FieldAt(Word(0x4400)) == Field(Data32, 0) && FieldAt(Word(0x4402)) == Field(Data32, 1)
  {
  }

  lemma LimitNumbers()
    ensures FieldAt(Word(0x4800)) == Field(Guest32, 0) && FieldAt(Word(0x4802)) == Field(Guest32, 1)
    ensures FieldAt(Word(0x4804)) == Field(Guest32, 2) && FieldAt(Word(0x4806)) == Field(Guest32, 3)
    ensures FieldAt(Word(0x4808)) == Field(Guest32, 4) && FieldAt(Word(0x480a)) == Field(Guest32, 5)
    ensures FieldAt(Word(0x480c)) == Field(Guest32, 6) && FieldAt(Word(0x480e)) == Field(Guest32, 7)
    ensures FieldAt(Word(0x4810)) == Field(Guest32, 8) && FieldAt(Word(0x4812)) == Field(Guest32, 9)
  {
  }

  lemma RightsNumbers()
    ensures FieldAt(Word(0x4814)) == Field(Guest32, 10) && FieldAt(Word(0x4816)) == Field(Guest32, 11)
    ensures FieldAt(Word(0x4818)) == Field(Guest32, 12) && FieldAt(Word(0x481a)) == Field(Guest32, 13)
    ensures FieldAt(Word(0x481c)) == Field(Guest32, 14) && FieldAt(Word(0x481e)) == Field(Guest32, 15)
    ensures FieldAt(Word(0x4820)) == Field(Guest32, 16) && FieldAt(Word(0x4822)) == Field(Guest32, 17)
    ensures FieldAt(Word(0x4824)) == Field(Guest32, 18) && FieldAt(Word(0x4826)) == Field(Guest32, 19)
    ensures FieldAt(Word(0x4828)) == Field(Guest32, 20) && FieldAt(Word(0x482a)) == Field(Guest32, 21)
  {
  }

  lemma GuestNaturalNumbers()
    ensures FieldAt(Word(0x6800)) == Field(GuestNatural, 0) && FieldAt(Word(0x6802)) == Field(GuestNatural, 1)
    ensures FieldAt(Word(0x6804)) == Field(GuestNatural, 2) && FieldAt(Word(0x6806)) == Field(GuestNatural, 3)
    ensures FieldAt(Word(0x6808)) == Field(GuestNatural, 4) && FieldAt(Word(0x680a)) == Field(GuestNatural, 5)
    ensures FieldAt(Word(0x680c)) == Field(GuestNatural, 6) && FieldAt(Word(0x680e)) == Field(GuestNatural, 7)
    ensures FieldAt(Word(0x6810)) == Field(GuestNatural, 8) && FieldAt(Word(0x6812)) == Field(GuestNatural, 9)
    ensures FieldAt(Word(0x6814)) == Field(GuestNatural, 10) && FieldAt(Word(0x6816)) == Field(GuestNatural, 11)
    ensures FieldAt(Word(0x6818)) == Field(GuestNatural, 12) && FieldAt(Word(0x681a)) == Field(GuestNatural, 13)
    ensures FieldAt(Word(0x681c)) == Field(GuestNatural, 14) && FieldAt(Word(0x681e)) == Field(GuestNatural, 15)
    ensures FieldAt(Word(0x6820)) == Field(GuestNatural, 16) && FieldAt(Word(0x6822)) == Field(GuestNatural, 17)
    ensures FieldAt(Word(0x6824)) == Field(GuestNatural, 18) && FieldAt(Word(0x6826)) == Field(GuestNatural, 19)
  {
  }

  lemma HostNaturalNumbers()
    ensures FieldAt(Word(0x6c00)) == Field(HostNatural, 0) && FieldAt(Word(0x6c02)) == Field(HostNatural, 1)
    ensures FieldAt(Word(0x6c04)) == Field(HostNatural, 2) && FieldAt(Word(0x6c06)) == Field(HostNatural, 3)
    ensures FieldAt(Word(0x6c08)) == Field(HostNatural, 4) && FieldAt(Word(0x6c0a)) == Field(HostNatural, 5)
    ensures FieldAt(Word(0x6c0c)) == Field(HostNatural, 6) && FieldAt(Word(0x6c0e)) == Field(HostNatural, 7)
    ensures FieldAt(Word(0x6c10)) == Field(HostNatural, 8) && FieldAt(Word(0x6c12)) == Field(HostNatural, 9)
    ensures FieldAt(Word(0x6c14)) == Field(HostNatural, 10) && FieldAt(Word(0x6c16)) == Field(HostNatural, 11)
  {
  }

  lemma Control32Numbers()
    ensures FieldAt(Word(0x4000)) == Field(Control32, 0) && FieldAt(Word(0x4002)) == Field(Control32, 1)
    ensures FieldAt(Word(0x4004)) == Field(Control32, 2) && FieldAt(Word(0x4006)) == Field(Control32, 3)
    ensures FieldAt(Word(0x4008)) == Field(Control32, 4) && FieldAt(Word(0x400a)) == Field(Control32, 5)
    ensures FieldAt(Word(0x400c)) == Field(Control32, 6) && FieldAt(Word(0x400e)) == Field(Control32, 7)
    ensures FieldAt(Word(0x4010)) == Field(Control32, 8) && FieldAt(Word(0x4012)) == Field(Control32, 9)
    ensures FieldAt(Word(0x4014)) == Field(Control32, 10) && FieldAt(Word(0x4016)) == Field(Control32, 11)
    ensures FieldAt(Word(0x4018)) == Field(Control32, 12) && FieldAt(Word(0x401a)) == Field(Control32, 13)
  {
  }

  lemma ControlNaturalNumbers()
    ensures FieldAt(Word(0x6000)) == Field(ControlNatural, 0) && FieldAt(Word(0x6002)) == Field(ControlNatural, 1)
    ensures FieldAt(Word(0x6004)) == Field(ControlNatural, 2) && FieldAt(Word(0x6006)) == Field(ControlNatural, 3)
    ensures FieldAt(Word(0x6008)) == Field(ControlNatural, 4) && FieldAt(Word(0x600a)) == Field(ControlNatural, 5)
    ensures FieldAt(Word(0x600c)) == Field(ControlNatural, 6) && FieldAt(Word(0x600e)) == Field(ControlNatural, 7)
  {
  }

  /** What VMREAD gives for a field number of vmm/cpu-defs.h. */
  function At(v: Vmcs, number: u64): Word { Get(v, FieldAt(Word(number))) }

  lemma InGroup(v: Vmcs, i: nat)
    ensures Get(v, Field(GuestNatural, i)) == GetGuestNatural(v.guestNatural, i)
    ensures Get(v, Field(HostNatural, i)) == GetHostNatural(v.hostNatural, i)
    ensures Get(v, Field(Control32, i)) == GetControl32(v.control32, i)
  {
  }

  lemma ReadGuest16(v: Vmcs)
    ensures At(v, 0x0800) == v.guest16.es && At(v, 0x0802) == v.guest16.cs && At(v, 0x0804) == v.guest16.ss
    ensures At(v, 0x0806) == v.guest16.ds && At(v, 0x0808) == v.guest16.fs && At(v, 0x080a) == v.guest16.gs
    ensures At(v, 0x080c) == v.guest16.ldtr && At(v, 0x080e) == v.guest16.tr
  {
    Guest16Numbers();
    hide FieldAt;
  }

  lemma ReadHost16(v: Vmcs)
    ensures At(v, 0x0c00) == v.host16.es && At(v, 0x0c02) == v.host16.cs && At(v, 0x0c04) == v.host16.ss
    ensures At(v, 0x0c06) == v.host16.ds && At(v, 0x0c08) == v.host16.fs && At(v, 0x0c0a) == v.host16.gs
    ensures At(v, 0x0c0c) == v.host16.tr
  {
    Host16Numbers();
    hide FieldAt;
  }

  lemma ReadLimits(v: Vmcs)
    ensures At(v, 0x4800) == v.guest32.limits.es && At(v, 0x4802) == v.guest32.limits.cs
    ensures At(v, 0x4804) == v.guest32.limits.ss && At(v, 0x4806) == v.guest32.limits.ds
    ensures At(v, 0x4808) == v.guest32.limits.fs && At(v, 0x480a) == v.guest32.limits.gs
    ensures At(v, 0x480c) == v.guest32.limits.ldtr && At(v, 0x480e) == v.guest32.limits.tr
    ensures At(v, 0x4810) == v.guest32.limits.gdtr && At(v, 0x4812) == v.guest32.limits.idtr
  {
    LimitNumbers();
    hide FieldAt;
  }

  lemma ReadRights(v: Vmcs)
    ensures At(v, 0x4814) == v.guest32.rights.es && At(v, 0x4816) == v.guest32.rights.cs
    ensures At(v, 0x4818) == v.guest32.rights.ss && At(v, 0x481a) == v.guest32.rights.ds
    ensures At(v, 0x481c) == v.guest32.rights.fs && At(v, 0x481e) == v.guest32.rights.gs
    ensures At(v, 0x4820) == v.guest32.rights.ldtr && At(v, 0x4822) == v.guest32.rights.tr
    ensures At(v, 0x4824) == v.guest32.interruptibilityState && At(v, 0x4826) == v.guest32.activityState
    ensures At(v, 0x4828) == v.guest32.smbase && At(v, 0x482a) == v.guest32.sysenterCs
  {
    RightsNumbers();
    hide FieldAt;
  }

  lemma ReadGuestNaturalFirst(v: Vmcs)
    ensures At(v, 0x6800) == v.guestNatural.cr0 && At(v, 0x6802) == v.guestNatural.cr3
    ensures At(v, 0x6804) == v.guestNatural.cr4 && At(v, 0x6806) == v.guestNatural.bases.es
    ensures At(v, 0x6808) == v.guestNatural.bases.cs && At(v, 0x680a) == v.guestNatural.bases.ss
    ensures At(v, 0x680c) == v.guestNatural.bases.ds && At(v, 0x680e) == v.guestNatural.bases.fs
  {
    GuestNaturalNumbers();
    forall i: nat ensures Get(v, Field(GuestNatural, i)) == GetGuestNatural(v.guestNatural, i) {
      InGroup(v, i);
    }
    hide FieldAt, Get;
  }

  lemma ReadGuestNaturalSecond(v: Vmcs)
    ensures At(v, 0x6810) == v.guestNatural.bases.gs && At(v, 0x6812) == v.guestNatural.bases.ldtr
    ensures At(v, 0x6814) == v.guestNatural.bases.tr && At(v, 0x6816) == v.guestNatural.bases.gdtr
    ensures At(v, 0x6818) == v.guestNatural.bases.idtr && At(v, 0x681a) == v.guestNatural.dr7
  {
    GuestNaturalNumbers();
    forall i: nat ensures Get(v, Field(GuestNatural, i)) == GetGuestNatural(v.guestNatural, i) {
      InGroup(v, i);
    }
    hide FieldAt, Get;
  }

  lemma ReadGuestNaturalThird(v: Vmcs)
    ensures At(v, 0x681c) == v.guestNatural.rsp && At(v, 0x681e) == v.guestNatural.rip
    ensures At(v, 0x6820) == v.guestNatural.rflags && At(v, 0x6822) == v.guestNatural.pendingDbgException
    ensures At(v, 0x6824) == v.guestNatural.sysenterEsp && At(v, 0x6826) == v.guestNatural.sysenterEip
  {
    GuestNaturalNumbers();
    forall i: nat ensures Get(v, Field(GuestNatural, i)) == GetGuestNatural(v.guestNatural, i) {
      InGroup(v, i);
    }
    hide FieldAt, Get;
  }

  lemma ReadGuestNatural(v: Vmcs)
    ensures At(v, 0x6800) == v.guestNatural.cr0 && At(v, 0x6802) == v.guestNatural.cr3
    ensures At(v, 0x6804) == v.guestNatural.cr4 && At(v, 0x6806) == v.guestNatural.bases.es
    ensures At(v, 0x6808) == v.guestNatural.bases.cs && At(v, 0x680a) == v.guestNatural.bases.ss
    ensures At(v, 0x680c) == v.guestNatural.bases.ds && At(v, 0x680e) == v.guestNatural.bases.fs
    ensures At(v, 0x6810) == v.guestNatural.bases.gs && At(v, 0x6812) == v.guestNatural.bases.ldtr
    ensures At(v, 0x6814) == v.guestNatural.bases.tr && At(v, 0x6816) == v.guestNatural.bases.gdtr
    ensures At(v, 0x6818) == v.guestNatural.bases.idtr && At(v, 0x681a) == v.guestNatural.dr7
    ensures At(v, 0x681c) == v.guestNatural.rsp && At(v, 0x681e) == v.guestNatural.rip
    ensures At(v, 0x6820) == v.guestNatural.rflags && At(v, 0x6822) == v.guestNatural.pendingDbgException
    ensures At(v, 0x6824) == v.guestNatural.sysenterEsp && At(v, 0x6826) == v.guestNatural.sysenterEip
  {
    hide *;
    ReadGuestNaturalFirst(v);
    ReadGuestNaturalSecond(v);
    ReadGuestNaturalThird(v);
  }

  lemma ReadHostNaturalFirst(v: Vmcs)
    ensures At(v, 0x6c00) == v.hostNatural.cr0 && At(v, 0x6c02) == v.hostNatural.cr3
    ensures At(v, 0x6c04) == v.hostNatural.cr4 && At(v, 0x6c06) == v.hostNatural.fsBase
    ensures At(v, 0x6c08) == v.hostNatural.gsBase && At(v, 0x6c0a) == v.hostNatural.trBase
  {
    HostNaturalNumbers();
    forall i: nat ensures Get(v, Field(HostNatural, i)) == GetHostNatural(v.hostNatural, i) {
      InGroup(v, i);
    }
    hide FieldAt, Get;
  }

  lemma ReadHostNaturalSecond(v: Vmcs)
    ensures At(v, 0x6c0c) == v.hostNatural.gdtrBase && At(v, 0x6c0e) == v.hostNatural.idtrBase
    ensures At(v, 0x6c10) == v.hostNatural.sysenterEsp && At(v, 0x6c12) == v.hostNatural.sysenterEip
    ensures At(v, 0x6c14) == v.hostNatural.rsp && At(v, 0x6c16) == v.hostNatural.rip
  {
    HostNaturalNumbers();
    forall i: nat ensures Get(v, Field(HostNatural, i)) == GetHostNatural(v.hostNatural, i) {
      InGroup(v, i);
    }
    hide FieldAt, Get;
  }

  lemma ReadHostNatural(v: Vmcs)
    ensures At(v, 0x6c00) == v.hostNatural.cr0 && At(v, 0x6c02) == v.hostNatural.cr3
    ensures At(v, 0x6c04) == v.hostNatural.cr4 && At(v, 0x6c06) == v.hostNatural.fsBase
    ensures At(v, 0x6c08) == v.hostNatural.gsBase && At(v, 0x6c0a) == v.hostNatural.trBase
    ensures At(v, 0x6c0c) == v.hostNatural.gdtrBase && At(v, 0x6c0e) == v.hostNatural.idtrBase
    ensures At(v, 0x6c10) == v.hostNatural.sysenterEsp && At(v, 0x6c12) == v.hostNatural.sysenterEip
    ensures At(v, 0x6c14) == v.hostNatural.rsp && At(v, 0x6c16) == v.hostNatural.rip
  {
    hide *;
    ReadHostNaturalFirst(v);
    ReadHostNaturalSecond(v);
  }

  lemma ReadWide(v: Vmcs)
    ensures At(v, 0x2000) == v.control64.ioBitmapAAddr && At(v, 0x2002) == v.control64.ioBitmapBAddr
    ensures At(v, 0x200c) == v.control64.execVmcsPtr && At(v, 0x2010) == v.control64.tscOffset
    ensures At(v, 0x2800) == v.guest64.linkPtr && At(v, 0x2802) == v.guest64.debugctl
    ensures At(v, 0x4c00) == v.host32.sysenterCs && At(v, 0x4400) == v.data32.vmInstructionError
    ensures At(v, 0x4402) == v.data32.exitReason
  {
    WideNumbers();
    hide FieldAt;
  }

  lemma ReadControl32First(v: Vmcs)
    ensures At(v, 0x4000) == v.control32.pinBasedVmCtls && At(v, 0x4002) == v.control32.procBasedVmCtls
    ensures At(v, 0x4004) == v.control32.exceptionBitmap && At(v, 0x4006) == v.control32.pfEcodeMask
    ensures At(v, 0x4008) == v.control32.pfEcodeMatch && At(v, 0x400a) == v.control32.cr3TargetCnt
    ensures At(v, 0x400c) == v.control32.vmexitCtls && At(v, 0x400e) == v.control32.vmexitMsrStoreCnt
  {
    Control32Numbers();
    forall i: nat ensures Get(v, Field(Control32, i)) == GetControl32(v.control32, i) {
      InGroup(v, i);
    }
    hide FieldAt, Get;
  }

  lemma ReadControl32Second(v: Vmcs)
    ensures At(v, 0x4010) == v.control32.vmexitMsrLoadCnt && At(v, 0x4012) == v.control32.vmentryCtls
    ensures At(v, 0x4014) == v.control32.vmentryMsrLoadCnt && At(v, 0x4016) == v.control32.vmentryIntInfo
    ensures At(v, 0x4018) == v.control32.vmentryEcode && At(v, 0x401a) == v.control32.vmentryInstrLen
  {
    Control32Numbers();
    forall i: nat ensures Get(v, Field(Control32, i)) == GetControl32(v.control32, i) {
      InGroup(v, i);
    }
    hide FieldAt, Get;
  }

  lemma ReadControl32(v: Vmcs)
    ensures At(v, 0x4000) == v.control32.pinBasedVmCtls && At(v, 0x4002) == v.control32.procBasedVmCtls
    ensures At(v, 0x4004) == v.control32.exceptionBitmap && At(v, 0x4006) == v.control32.pfEcodeMask
    ensures At(v, 0x4008) == v.control32.pfEcodeMatch && At(v, 0x400a) == v.control32.cr3TargetCnt
    ensures At(v, 0x400c) == v.control32.vmexitCtls && At(v, 0x400e) == v.control32.vmexitMsrStoreCnt
    ensures At(v, 0x4010) == v.control32.vmexitMsrLoadCnt && At(v, 0x4012) == v.control32.vmentryCtls
    ensures At(v, 0x4014) == v.control32.vmentryMsrLoadCnt && At(v, 0x4016) == v.control32.vmentryIntInfo
    ensures At(v, 0x4018) == v.control32.vmentryEcode && At(v, 0x401a) == v.control32.vmentryInstrLen
  {
    hide *;
    ReadControl32First(v);
    ReadControl32Second(v);
  }

  lemma ReadControlNatural(v: Vmcs)
    ensures At(v, 0x6000) == v.controlNatural.cr0GuestHostMask
    ensures At(v, 0x6002) == v.controlNatural.cr4GuestHostMask
    ensures At(v, 0x6004) == v.controlNatural.cr0ReadShadow && At(v, 0x6006) == v.controlNatural.cr4ReadShadow
    ensures At(v, 0x6008) == v.controlNatural.cr3TargetValue0
    ensures At(v, 0x600a) == v.controlNatural.cr3TargetValue1
    ensures At(v, 0x600c) == v.controlNatural.cr3TargetValue2
    ensures At(v, 0x600e) == v.controlNatural.cr3TargetValue3
  {
    ControlNaturalNumbers();
    hide FieldAt;
  }

  // ---------------------------------------------- the processor by field number

  lemma HalfWord(w: Word)
    ensures LowHalf(w).bits as u64 == w.bits & 0xffff
  {
  }

  /** What a VM exit loads. */
  lemma ExitLoads(f: Vmcs)
    ensures var r := HostRegs(f);
      && r.cr0 == At(f, 0x6c00) && r.cr3 == At(f, 0x6c02) && r.cr4 == At(f, 0x6c04)
      && r.es == LowHalf(At(f, 0x0c00)) && r.cs == LowHalf(At(f, 0x0c02)) && r.ss == LowHalf(At(f, 0x0c04))
      && r.ds == LowHalf(At(f, 0x0c06)) && r.fs == LowHalf(At(f, 0x0c08)) && r.gs == LowHalf(At(f, 0x0c0a))
      && r.ldtr == Half(0) && r.tr == LowHalf(At(f, 0x0c0c))
      && r.fsBase == At(f, 0x6c06) && r.gsBase == At(f, 0x6c08) && r.trBase == At(f, 0x6c0a) && r.trLimit == Word(0x67)
      && r.gdtr == Descriptor(Half(0xffff), At(f, 0x6c0c)) && r.idtr == Descriptor(Half(0xffff), At(f, 0x6c0e))
      && r.sysenterCs == At(f, 0x4c00) && r.sysenterEsp == At(f, 0x6c10) && r.sysenterEip == At(f, 0x6c12)
      && r.dr7 == Word(0x400) && r.debugctl == Word(0)
  {
    ReadHost16(f);
    ReadHostNatural(f);
    ReadWide(f);
    hide At, LowHalf;
  }

  /** What a VM entry loads. */
  lemma EntryLoads(f: Vmcs, r: Regs)
    ensures var g := GuestRegs(f, r);
      && g.cr0 == At(f, 0x6800) && g.cr3 == At(f, 0x6802) && g.cr4 == At(f, 0x6804)
      && g.es == LowHalf(At(f, 0x0800)) && g.cs == LowHalf(At(f, 0x0802)) && g.ss == LowHalf(At(f, 0x0804))
      && g.ds == LowHalf(At(f, 0x0806)) && g.fs == LowHalf(At(f, 0x0808)) && g.gs == LowHalf(At(f, 0x080a))
      && g.ldtr == LowHalf(At(f, 0x080c)) && g.tr == LowHalf(At(f, 0x080e))
      && g.fsBase == At(f, 0x680e) && g.gsBase == At(f, 0x6810)
      && g.trBase == At(f, 0x6814) && g.trLimit == At(f, 0x480e)
      && g.gdtr == Descriptor(LowHalf(At(f, 0x4810)), At(f, 0x6816))
      && g.idtr == Descriptor(LowHalf(At(f, 0x4812)), At(f, 0x6818))
      && g.sysenterCs == At(f, 0x482a) && g.sysenterEsp == At(f, 0x6824) && g.sysenterEip == At(f, 0x6826)
  {
    ReadGuest16(f);
    ReadGuestNatural(f);
    ReadLimits(f);
    ReadRights(f);
    hide At, LowHalf, Has;
  }

  lemma EntryLoadsDebug(f: Vmcs, r: Regs)
    ensures var g, loads := GuestRegs(f, r), At(f, 0x4012).bits & 0x4 != 0;
      && g.dr7 == (if loads then At(f, 0x681a) else r.dr7)
      && g.debugctl == (if loads then At(f, 0x2802) else r.debugctl)
  {
    ReadGuestNatural(f);
    ReadControl32(f);
    ReadWide(f);
    hide At, LowHalf;
  }

  /** What VMWRITE keeps of its operand, by the width of the field. */
  lemma KeptOf16(index: nat, w: Word)
    ensures Fit(Field(Guest16, index), w) == Fit(Field(Host16, index), w)
    ensures Fit(Field(Host16, index), w).bits == w.bits & 0xffff
  {
  }

  lemma KeptOf32(index: nat, w: Word)
    ensures Fit(Field(Guest32, index), w) == Fit(Field(Host32, index), w) == Fit(Field(Control32, index), w)
    ensures Fit(Field(Control32, index), w).bits == w.bits & 0xffff_ffff
  {
  }

  lemma KeptWhole(index: nat, w: Word)
    ensures Fit(Field(Guest64, index), w) == Fit(Field(Control64, index), w) == w
    ensures Fit(Field(GuestNatural, index), w) == Fit(Field(HostNatural, index), w) == w
    ensures Fit(Field(ControlNatural, index), w) == w
  {
  }
}
