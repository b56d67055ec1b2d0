/** Capability MSRs and the control words built from them (vmm/vmx.c:282-298, 417-466). */
module Controls {
  import opened Words
  import opened CpuDefs
  import opened Processor

  const NO_BITS := Dword(0)

  function Allowed0(msr: Word): Dword { Low32(msr.bits) }

  function Allowed1(msr: Word): Dword { Low32(msr.bits >> 32) }

  predicate Within(a: Dword, b: Dword) { a.bits & b.bits == a.bits }

  /** SDM appendix A.3 to A.5: bits set in allowed-0 must be 1, bits clear in allowed-1 must be 0. */
  predicate Legal(word: Dword, msr: Word) { Within(Allowed0(msr), word) && Within(word, Allowed1(msr)) }

  /** The word the driver writes for a control field. */
  function ControlWord(allowed0: Dword, allowed1: Dword, forced: Dword): Dword {
    Dword((allowed0.bits & allowed1.bits) | forced.bits)
  }

  predicate HasTrueControls(caps: Capabilities) { Has(caps.basic, 0x80_0000_0000_0000) }

  function PinMsr(caps: Capabilities): Word { if HasTrueControls(caps) then caps.truePin else caps.pin }

  /** With true controls the driver still reads the ordinary MSR here. */
  function ProcMsr(caps: Capabilities): Word { caps.proc }

  function ExitMsr(caps: Capabilities): Word { if HasTrueControls(caps) then caps.trueExit else caps.exit }

  function EntryMsr(caps: Capabilities): Word { if HasTrueControls(caps) then caps.trueEntry else caps.entry }

  function PinWord(caps: Capabilities): Dword {
    ControlWord(Allowed0(PinMsr(caps)), Allowed1(PinMsr(caps)), NO_BITS)
  }

  function ProcWord(caps: Capabilities): Dword {
    ControlWord(Allowed0(ProcMsr(caps)), Allowed1(ProcMsr(caps)), NO_BITS)
  }

  function ExitWord(caps: Capabilities): Dword {
    ControlWord(Allowed0(ExitMsr(caps)), Allowed1(ExitMsr(caps)), HOST_ADDR_SPACE_SIZE)
  }

  function EntryWord(caps: Capabilities): Dword {
    ControlWord(Allowed0(EntryMsr(caps)), Allowed1(EntryMsr(caps)), IA32E_MODE_GUEST)
  }

  lemma HasRequired(a0: Dword, a1: Dword, forced: Dword)
    requires Within(a0, a1)
    ensures Within(a0, ControlWord(a0, a1, forced))
  {
  }

  lemma HasForced(a0: Dword, a1: Dword, forced: Dword)
    ensures Within(forced, ControlWord(a0, a1, forced))
  {
  }

  lemma StaysAllowed(a0: Dword, a1: Dword, forced: Dword)
    requires Within(forced, a1)
    ensures Within(ControlWord(a0, a1, forced), a1)
  {
  }

  lemma ForcedAllowed(a0: Dword, a1: Dword, forced: Dword)
    requires Within(ControlWord(a0, a1, forced), a1)
    ensures Within(forced, a1)
  {
  }

  lemma WordLeast(a0: Dword, a1: Dword, forced: Dword, v: Dword)
    requires Within(a0, v) && Within(forced, v)
    ensures Within(ControlWord(a0, a1, forced), v)
  {
  }

  lemma ZeroWithin(v: Dword)
    ensures Within(NO_BITS, v)
  {
  }

  lemma WithinTransitive(a: Dword, b: Dword, c: Dword)
    requires Within(a, b) && Within(b, c)
    ensures Within(a, c)
  {
  }

  lemma WithinBoth(a: Dword, b: Dword)
    requires Within(a, b) && Within(b, a)
    ensures a == b
  {
  }

  /** A control word is legal exactly when the MSR allows the forced bits, and
      it is contained in every legal word that has them. */
  lemma LegalAndLeast(msr: Word, forced: Dword)
    requires Within(Allowed0(msr), Allowed1(msr))
    ensures var w := ControlWord(Allowed0(msr), Allowed1(msr), forced);
      && (Legal(w, msr) <==> Within(forced, Allowed1(msr)))
      && Within(forced, w)
      && forall v: Dword :: Legal(v, msr) && Within(forced, v) ==> Within(w, v)
  {
    hide Within, ControlWord, Allowed0, Allowed1;
    var w := ControlWord(Allowed0(msr), Allowed1(msr), forced);
    var a0, a1 := Allowed0(msr), Allowed1(msr);
    HasRequired(a0, a1, forced);
    HasForced(a0, a1, forced);
    if Within(forced, a1) {
      StaysAllowed(a0, a1, forced);
    } else if Within(w, a1) {
      ForcedAllowed(a0, a1, forced);
    }
    forall v: Dword | Legal(v, msr) && Within(forced, v)
      ensures Within(w, v)
    {
      WordLeast(Allowed0(msr), Allowed1(msr), forced, v);
    }
  }

  /** SDM appendix A.3.2: the TRUE MSR has the same allowed-1 settings and may
      relax allowed-0 settings. Under that, the processor-based word is legal for
      the TRUE MSR although it was read from the other one, and it is the least
      such word exactly when the two MSRs allow the same 0-settings. */
  lemma ProcWordAgainstTrueMsr(caps: Capabilities)
    requires Within(Allowed0(caps.proc), Allowed1(caps.proc))
    requires Allowed1(caps.trueProc) == Allowed1(caps.proc)
    requires Within(Allowed0(caps.trueProc), Allowed0(caps.proc))
    ensures Legal(ProcWord(caps), caps.trueProc)
    ensures (forall v: Dword :: Legal(v, caps.trueProc) ==> Within(ProcWord(caps), v))
        <==> Allowed0(caps.trueProc) == Allowed0(caps.proc)
  {
    hide Within, ControlWord, Allowed0, Allowed1;
    var a0, a1, t0, w := Allowed0(caps.proc), Allowed1(caps.proc), Allowed0(caps.trueProc), ProcWord(caps);
    HasRequired(a0, a1, NO_BITS);
    ZeroWithin(a1);
    StaysAllowed(a0, a1, NO_BITS);
    WithinTransitive(t0, a0, w);
    WithinTransitive(t0, a0, a1);
    WithinReflexive(t0);
    assert Legal(t0, caps.trueProc);
    if Within(w, t0) {
      WithinTransitive(a0, w, t0);
      WithinBoth(a0, t0);
    }
    forall v: Dword | Legal(v, caps.trueProc) && t0 == a0
      ensures Within(w, v)
    {
      WordLeast(a0, a1, NO_BITS, v);
      ZeroWithin(v);
    }
  }

  lemma WithinReflexive(a: Dword)
    ensures Within(a, a)
  {
  }

  /** The identifier the driver writes into its VMXON region and VMCS. */
  function WrittenRevision(basic: Word): Dword { Low32(0x8fff_ffff & basic.bits) }

  lemma LowBits(a: u64, b: u64)
    ensures Low32(a) == Low32(b) <==> a & 0xffff_ffff == b & 0xffff_ffff
  {
  }

  lemma RevisionBits(b: u64)
    ensures Low32(0x8fff_ffff & b) == Low32(b & 0x7fff_ffff) <==> b & 0xf000_0000 == 0
  {
    LowBits(0x8fff_ffff & b, b & 0x7fff_ffff);
  }

  lemma Written(b: u64)
    ensures WrittenRevision(Word(b)) == Low32(0x8fff_ffff & b)
  {
    hide Low32;
  }

  lemma Required(b: u64)
    ensures RequiredRevision(Word(b)) == Low32(b & 0x7fff_ffff)
  {
    hide Low32;
  }

  /** The driver's identifier is the one the processor requires exactly when bits
      28 to 31 of IA32_VMX_BASIC are clear: the mask 0x8fffffff drops three bits
      of the identifier and keeps bit 31. */
  lemma RevisionMask(basic: Word)
    ensures WrittenRevision(basic) == RequiredRevision(basic) <==> !Has(basic, 0xf000_0000)
  {
    hide Low32, WrittenRevision, RequiredRevision;
    var b := basic.bits;
    Written(b);
    Required(b);
    RevisionBits(b);
  }
}
