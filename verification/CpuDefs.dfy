/** Machine words and the few shared datatypes. */
module Words {
  type u32 = bv32
  type u64 = bv64

  datatype Option<+T> = None | Some(value: T)

  /** A 64-bit register, memory word or address. The wrapper keeps bits out of
      sight where only the identity of a word matters. */
  datatype Word = Word(bits: u64)

  datatype Dword = Dword(bits: u32)

  /** A segment selector, or another 16-bit quantity. */
  datatype Half = Half(bits: bv16)

  type Address = Word

  const ZERO := Word(0)

  predicate Has(w: Word, mask: u64) { w.bits & mask != 0 }

  function With(w: Word, mask: u64): Word { Word(w.bits | mask) }

  function Without(w: Word, mask: u64): Word { Word(w.bits & !mask) }

  function Masked(w: Word, mask: u64): Word { Word(w.bits & mask) }

  function Plus(w: Word, d: u64): Word { Word(w.bits + d) }

  function Minus(w: Word, d: u64): Word { Word(w.bits - d) }

  lemma PlusNothing(w: Word)
    ensures Plus(w, 0) == w
  {
  }

  lemma PlusOneMore(w: Word, d: u64)
    ensures Plus(w, d + 1) == Word(Plus(w, d).bits + 1)
  {
  }

  function LowHalf(w: Word): Half { Half((w.bits & 0xffff) as bv16) }

  function Low32(x: u64): Dword { Dword((x & 0xffff_ffff) as u32) }
}

/** Constants of vmm/cpu-defs.h. A VMCS field number encodes the width of the
    field (bits 14:13), the area it lives in (bits 11:10) and an index (bits 9:1);
    see the Intel SDM, volume 3C, section 24.11.2 and appendix B. */
module CpuDefs {
  import opened Words

  datatype Width = Bits16 | Bits64 | Bits32 | Natural
  datatype Area = Control | ReadOnly | Guest | Host

  /** The combinations of width and area that occur. */
  datatype Group =
    | Guest16 | Guest64 | Guest32 | GuestNatural
    | Host16 | Host32 | HostNatural
    | Control64 | Control32 | ControlNatural
    | Data32

  datatype Field = Field(group: Group, index: nat)

  function WidthOf(g: Group): Width {
    match g
    case Guest16 | Host16 => Bits16
    case Guest64 | Control64 => Bits64
    case Guest32 | Host32 | Control32 | Data32 => Bits32
    case GuestNatural | HostNatural | ControlNatural => Natural
  }

  function AreaOf(g: Group): Area {
    match g
    case Guest16 | Guest64 | Guest32 | GuestNatural => Guest
    case Host16 | Host32 | HostNatural => Host
    case Control64 | Control32 | ControlNatural => Control
    case Data32 => ReadOnly
  }

  function WidthBits(w: Width): nat { match w case Bits16 => 0 case Bits64 => 1 case Bits32 => 2 case Natural => 3 }

  function AreaBits(a: Area): nat { match a case Control => 0 case ReadOnly => 1 case Guest => 2 case Host => 3 }

  /** The number by which VMREAD and VMWRITE know a field. */
  function Number(f: Field): nat {
    0x2000 * WidthBits(WidthOf(f.group)) + 0x400 * AreaBits(AreaOf(f.group)) + 2 * f.index
  }

  /** No two fields share a number, as long as the index fits its nine bits. */
  lemma NumbersDistinct(f: Field, g: Field)
    requires f.index < 0x200 && g.index < 0x200
    ensures Number(f) == Number(g) <==> f == g
  {
  }

  /** The part of a source operand that VMWRITE keeps: excess high bits are dropped. */
  function Fit(f: Field, value: Word): Word {
    match WidthOf(f.group)
    case Bits16 => Masked(value, 0xffff)
    case Bits32 => Masked(value, 0xffff_ffff)
    case _ => value
  }

  const UNUSABLE_AR := Word(0x10000)

  const CR4_VMXE: u64 := 0x2000
  const RFLAGS_CF: u64 := 0x1
  const RFLAGS_ZF: u64 := 0x40
  const RFLAGS_IF: u64 := 0x200

  const HOST_ADDR_SPACE_SIZE := Dword(0x200)
  const IA32E_MODE_GUEST := Dword(0x200)

  /** VM-entry control bit 2 (SDM section 24.8.1). */
  const LOAD_DEBUG_CONTROLS: u64 := 0x4

  const VMEXIT_CPUID := Word(10)

  // 16-bit guest state
  const GUEST_ES := Field(Guest16, 0)                         // 0x0800
  const GUEST_CS := Field(Guest16, 1)                         // 0x0802
  const GUEST_SS := Field(Guest16, 2)                         // 0x0804
  const GUEST_DS := Field(Guest16, 3)                         // 0x0806
  const GUEST_FS := Field(Guest16, 4)                         // 0x0808
  const GUEST_GS := Field(Guest16, 5)                         // 0x080a
  const GUEST_LDTR := Field(Guest16, 6)                       // 0x080c
  const GUEST_TR := Field(Guest16, 7)                         // 0x080e

  // 64-bit guest state
  const VMCS_LINK_PTR := Field(Guest64, 0)                    // 0x2800
  const GUEST_IA32_DEBUGCTL := Field(Guest64, 1)              // 0x2802

  // 32-bit guest state
  const GUEST_ES_LIMIT := Field(Guest32, 0)                   // 0x4800
  const GUEST_CS_LIMIT := Field(Guest32, 1)                   // 0x4802
  const GUEST_SS_LIMIT := Field(Guest32, 2)                   // 0x4804
  const GUEST_DS_LIMIT := Field(Guest32, 3)                   // 0x4806
  const GUEST_FS_LIMIT := Field(Guest32, 4)                   // 0x4808
  const GUEST_GS_LIMIT := Field(Guest32, 5)                   // 0x480a
  const GUEST_LDTR_LIMIT := Field(Guest32, 6)                 // 0x480c
  const GUEST_TR_LIMIT := Field(Guest32, 7)                   // 0x480e
  const GUEST_GDTR_LIMIT := Field(Guest32, 8)                 // 0x4810
  const GUEST_IDTR_LIMIT := Field(Guest32, 9)                 // 0x4812
  const GUEST_ES_ACCESS_RIGHTS := Field(Guest32, 10)          // 0x4814
  const GUEST_CS_ACCESS_RIGHTS := Field(Guest32, 11)          // 0x4816
  const GUEST_SS_ACCESS_RIGHTS := Field(Guest32, 12)          // 0x4818
  const GUEST_DS_ACCESS_RIGHTS := Field(Guest32, 13)          // 0x481a
  const GUEST_FS_ACCESS_RIGHTS := Field(Guest32, 14)          // 0x481c
  const GUEST_GS_ACCESS_RIGHTS := Field(Guest32, 15)          // 0x481e
  const GUEST_LDTR_ACCESS_RIGHTS := Field(Guest32, 16)        // 0x4820
  const GUEST_TR_ACCESS_RIGHTS := Field(Guest32, 17)          // 0x4822
  const GUEST_INTERRUPTIBILITY_STATE := Field(Guest32, 18)    // 0x4824
  const GUEST_ACTIVITY_STATE := Field(Guest32, 19)            // 0x4826
  const GUEST_SMBASE := Field(Guest32, 20)                    // 0x4828
  const GUEST_IA32_SYSENTER_CS := Field(Guest32, 21)          // 0x482a

  // Natural-width guest state
  const GUEST_CR0 := Field(GuestNatural, 0)                   // 0x6800
  const GUEST_CR3 := Field(GuestNatural, 1)                   // 0x6802
  const GUEST_CR4 := Field(GuestNatural, 2)                   // 0x6804
  const GUEST_ES_BASE := Field(GuestNatural, 3)               // 0x6806
  const GUEST_CS_BASE := Field(GuestNatural, 4)               // 0x6808
  const GUEST_SS_BASE := Field(GuestNatural, 5)               // 0x680a
  const GUEST_DS_BASE := Field(GuestNatural, 6)               // 0x680c
  const GUEST_FS_BASE := Field(GuestNatural, 7)               // 0x680e
  const GUEST_GS_BASE := Field(GuestNatural, 8)               // 0x6810
  const GUEST_LDTR_BASE := Field(GuestNatural, 9)             // 0x6812
  const GUEST_TR_BASE := Field(GuestNatural, 10)              // 0x6814
  const GUEST_GDTR_BASE := Field(GuestNatural, 11)            // 0x6816
  const GUEST_IDTR_BASE := Field(GuestNatural, 12)            // 0x6818
  const GUEST_DR7 := Field(GuestNatural, 13)                  // 0x681a
  const GUEST_RSP := Field(GuestNatural, 14)                  // 0x681c
  const GUEST_RIP := Field(GuestNatural, 15)                  // 0x681e
  const GUEST_RFLAGS := Field(GuestNatural, 16)               // 0x6820
  const GUEST_PENDING_DBG_EXCEPTION := Field(GuestNatural, 17)// 0x6822
  const GUEST_IA32_SYSENTER_ESP := Field(GuestNatural, 18)    // 0x6824
  const GUEST_IA32_SYSENTER_EIP := Field(GuestNatural, 19)    // 0x6826

  // 16-bit host state
  const HOST_ES := Field(Host16, 0)                           // 0x0c00
  const HOST_CS := Field(Host16, 1)                           // 0x0c02
  const HOST_SS := Field(Host16, 2)                           // 0x0c04
  const HOST_DS := Field(Host16, 3)                           // 0x0c06
  const HOST_FS := Field(Host16, 4)                           // 0x0c08
  const HOST_GS := Field(Host16, 5)                           // 0x0c0a
  const HOST_TR := Field(Host16, 6)                           // 0x0c0c

  // 32-bit host state
  const HOST_IA32_SYSENTER_CS := Field(Host32, 0)             // 0x4c00

  // Natural-width host state
  const HOST_CR0 := Field(HostNatural, 0)                     // 0x6c00
  const HOST_CR3 := Field(HostNatural, 1)                     // 0x6c02
  const HOST_CR4 := Field(HostNatural, 2)                     // 0x6c04
  const HOST_FS_BASE := Field(HostNatural, 3)                 // 0x6c06
  const HOST_GS_BASE := Field(HostNatural, 4)                 // 0x6c08
  const HOST_TR_BASE := Field(HostNatural, 5)                 // 0x6c0a
  const HOST_GDTR_BASE := Field(HostNatural, 6)               // 0x6c0c
  const HOST_IDTR_BASE := Field(HostNatural, 7)               // 0x6c0e
  const HOST_IA32_SYSENTER_ESP := Field(HostNatural, 8)       // 0x6c10
  const HOST_IA32_SYSENTER_EIP := Field(HostNatural, 9)       // 0x6c12
  const HOST_RSP := Field(HostNatural, 10)                    // 0x6c14
  const HOST_RIP := Field(HostNatural, 11)                    // 0x6c16

  // 64-bit control fields
  const IO_BITMAP_A_ADDR := Field(Control64, 0)               // 0x2000
  const IO_BITMAP_B_ADDR := Field(Control64, 1)               // 0x2002
  const EXEC_VMCS_PTR := Field(Control64, 6)                  // 0x200c
  const TSC_OFFSET := Field(Control64, 8)                     // 0x2010

  // 32-bit control fields
  const PIN_BASED_VM_CTLS := Field(Control32, 0)              // 0x4000
  const PROC_BASED_VM_CTLS := Field(Control32, 1)             // 0x4002
  const EXCEPTION_BITMAP := Field(Control32, 2)               // 0x4004
  const PF_ECODE_MASK := Field(Control32, 3)                  // 0x4006
  const PF_ECODE_MATCH := Field(Control32, 4)                 // 0x4008
  const CR3_TARGET_CNT := Field(Control32, 5)                 // 0x400a
  const VMEXIT_CTLS := Field(Control32, 6)                    // 0x400c
  const VMEXIT_MSR_STORE_CNT := Field(Control32, 7)           // 0x400e
  const VMEXIT_MSR_LOAD_CNT := Field(Control32, 8)            // 0x4010
  const VMENTRY_CTLS := Field(Control32, 9)                   // 0x4012
  const VMENTRY_MSR_LOAD_CNT := Field(Control32, 10)          // 0x4014
  const VMENTRY_INT_INFO := Field(Control32, 11)              // 0x4016
  const VMENTRY_ECODE := Field(Control32, 12)                 // 0x4018
  const VMENTRY_INSTR_LEN := Field(Control32, 13)             // 0x401a

  // Natural-width control fields
  const CR0_GUEST_HOST_MASK := Field(ControlNatural, 0)       // 0x6000
  const CR4_GUEST_HOST_MASK := Field(ControlNatural, 1)       // 0x6002
  const CR0_READ_SHADOW := Field(ControlNatural, 2)           // 0x6004
  const CR4_READ_SHADOW := Field(ControlNatural, 3)           // 0x6006
  const CR3_TARGET_VALUE_0 := Field(ControlNatural, 4)        // 0x6008
  const CR3_TARGET_VALUE_1 := Field(ControlNatural, 5)        // 0x600a
  const CR3_TARGET_VALUE_2 := Field(ControlNatural, 6)        // 0x600c
  const CR3_TARGET_VALUE_3 := Field(ControlNatural, 7)        // 0x600e

  // 32-bit read-only data fields
  const VM_INSTRUCTION_ERROR := Field(Data32, 0)              // 0x4400
  const EXIT_REASON := Field(Data32, 1)                       // 0x4402

  /** The numbers of vmm/cpu-defs.h, group by group. */
  lemma NumbersAsDefined(i: nat)
    ensures Number(Field(Guest16, i)) == 0x0800 + 2 * i
    ensures Number(Field(Guest64, i)) == 0x2800 + 2 * i
    ensures Number(Field(Guest32, i)) == 0x4800 + 2 * i
    ensures Number(Field(GuestNatural, i)) == 0x6800 + 2 * i
    ensures Number(Field(Host16, i)) == 0x0c00 + 2 * i
    ensures Number(Field(Host32, i)) == 0x4c00 + 2 * i
    ensures Number(Field(HostNatural, i)) == 0x6c00 + 2 * i
    ensures Number(Field(Control64, i)) == 0x2000 + 2 * i
    ensures Number(Field(Control32, i)) == 0x4000 + 2 * i
    ensures Number(Field(ControlNatural, i)) == 0x6000 + 2 * i
    ensures Number(Field(Data32, i)) == 0x4400 + 2 * i
  {
  }

  /** The field that a number in a register names. */
  function FieldAt(number: Word): Field {
    var kind := number.bits & 0x7c00;
    var index := ((number.bits >> 1) & 0x1ff) as nat;
    if kind == 0x0800 then Field(Guest16, index)
    else if kind == 0x2800 then Field(Guest64, index)
    else if kind == 0x4800 then Field(Guest32, index)
    else if kind == 0x6800 then Field(GuestNatural, index)
    else if kind == 0x0c00 then Field(Host16, index)
    else if kind == 0x4c00 then Field(Host32, index)
    else if kind == 0x6c00 then Field(HostNatural, index)
    else if kind == 0x2000 then Field(Control64, index)
    else if kind == 0x4000 then Field(Control32, index)
    else if kind == 0x6000 then Field(ControlNatural, index)
    else Field(Data32, index)
  }

  const HOST_RSP_NUMBER := Word(0x6c14)

  lemma HostRspNumber()
    ensures FieldAt(HOST_RSP_NUMBER) == HOST_RSP && Number(HOST_RSP) == 0x6c14
  {
  }
}
