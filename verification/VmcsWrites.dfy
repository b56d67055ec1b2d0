/** The 97 VMCS writes of initialize_vmcs, in the order in which it makes them, and
    what they come to: pairwise different fields, none of them read-only, every value
    as wide as its field, and together, in any order, exactly the image. */
module VmcsWrites {
  import opened Words
  import opened CpuDefs
  import opened VmcsRegions
  import opened VmcsLaws
  import opened Segments
  import opened Controls
  import opened Trampoline
  import opened VmcsImage
  import opened Widths

  // -------------------------------------------------------------- small series

  function PutOne(v: Vmcs, w: Write): Vmcs { Put(v, w.field, w.value) }

  lemma PutOneSeries(v: Vmcs, ws: seq<Write>)
    requires |ws| == 1
    ensures PutAll(v, ws) == PutOne(v, ws[0])
  {
    hide Put;
  }

  lemma PutTwoSeries(v: Vmcs, ws: seq<Write>)
    requires |ws| == 2
    ensures PutAll(v, ws) == PutOne(PutOne(v, ws[0]), ws[1])
  {
    PutOneSeries(v, ws[..1]);
    hide Put;
  }

  lemma PutThreeSeries(v: Vmcs, ws: seq<Write>)
    requires |ws| == 3
    ensures PutAll(v, ws) == PutOne(PutOne(PutOne(v, ws[0]), ws[1]), ws[2])
  {
    PutTwoSeries(v, ws[..2]);
    hide Put;
  }

  lemma PutFourSeries(v: Vmcs, ws: seq<Write>)
    requires |ws| == 4
    ensures PutAll(v, ws) == PutOne(PutOne(PutOne(PutOne(v, ws[0]), ws[1]), ws[2]), ws[3])
  {
    PutThreeSeries(v, ws[..3]);
    hide Put;
  }

  lemma PutFiveSeries(v: Vmcs, ws: seq<Write>)
    requires |ws| == 5
    ensures PutAll(v, ws) == PutOne(PutOne(PutOne(PutOne(PutOne(v, ws[0]), ws[1]), ws[2]), ws[3]), ws[4])
  {
    PutFourSeries(v, ws[..4]);
    hide Put;
  }

  lemma PutSixSeries(v: Vmcs, ws: seq<Write>)
    requires |ws| == 6
    ensures PutAll(v, ws) == PutOne(PutOne(PutOne(PutOne(PutOne(PutOne(v, ws[0]), ws[1]), ws[2]), ws[3]), ws[4]),
      ws[5])
  {
    PutFiveSeries(v, ws[..5]);
    hide Put;
  }

  lemma PutSevenSeries(v: Vmcs, ws: seq<Write>)
    requires |ws| == 7
    ensures PutAll(v, ws) == PutOne(PutOne(PutOne(PutOne(PutOne(PutOne(PutOne(v, ws[0]), ws[1]), ws[2]), ws[3]),
      ws[4]), ws[5]), ws[6])
  {
    PutSixSeries(v, ws[..6]);
    hide Put;
  }

  lemma PutEightSeries(v: Vmcs, ws: seq<Write>)
    requires |ws| == 8
    ensures PutAll(v, ws) == PutOne(PutOne(PutOne(PutOne(PutOne(PutOne(PutOne(PutOne(v, ws[0]), ws[1]), ws[2]),
      ws[3]), ws[4]), ws[5]), ws[6]), ws[7])
  {
    PutSevenSeries(v, ws[..7]);
    hide Put;
  }

  lemma PutAppended(v: Vmcs, a: seq<Write>, b: seq<Write>)
    ensures PutAll(v, a + b) == PutAll(PutAll(v, a), b)
  {
    hide Put;
    if b == [] {
      assert a + b == a;
    } else {
      var n := |b| - 1;
      PutAppended(v, a, b[..n]);
      assert (a + b)[..|a + b| - 1] == a + b[..n];
    }
  }

  /** A VMWRITE that the processor carries out in full. */
  predicate Proper(w: Write) { AreaOf(w.field.group) != ReadOnly && Fits(w.field, w.value) }

  ghost predicate AllProper(ws: seq<Write>) { forall i :: 0 <= i < |ws| ==> Proper(ws[i]) }

  // ----------------------------------------------------------- place of a field

  function At(places: seq<int>, i: nat): int { if i < |places| then places[i] else -1 }

  /** The position of a field in the series of writes; -1 if it is not written. */
  function Position(f: Field): int {
    match f.group
    case Guest16 => At([1, 6, 11, 16, 21, 27, 32, 42], f.index)
    case Guest64 => At([52, 53], f.index)
    case Guest32 => At([3, 8, 13, 18, 24, 30, 34, 44, 36, 39, 4, 9, 14, 19, 25, 31, 35, 45, 68, 69, 70, 71], f.index)
    case GuestNatural => At([73, 81, 77, 2, 7, 12, 17, 22, 28, 33, 46, 37, 40, 87, 88, 89, 91, 92, 93, 95], f.index)
    case Host16 => At([0, 5, 10, 15, 20, 26, 43], f.index)
    case Host32 => At([72], f.index)
    case HostNatural => At([74, 82, 78, 23, 29, 47, 38, 41, 94, 96, -1, 90], f.index)
    case Control64 => At([48, 49, -1, -1, -1, -1, 50, -1, 51], f.index)
    case Control32 => At([54, 55, 56, 57, 58, 59, 60, 61, 62, 63, 64, 65, 66, 67], f.index)
    case ControlNatural => At([75, 79, 76, 80, 83, 84, 85, 86], f.index)
    case Data32 => -1
  }

  /** The writes stand at consecutive positions from `start`. */
  ghost predicate Placed(ws: seq<Write>, start: int) {
    forall i :: 0 <= i < |ws| ==> Position(ws[i].field) == start + i
  }

  lemma PlacedAppended(a: seq<Write>, b: seq<Write>, start: int)
    requires Placed(a, start) && Placed(b, start + |a|)
    ensures Placed(a + b, start)
  {
    hide Position;
  }

  lemma PlacedDifferent(ws: seq<Write>, start: int)
    requires Placed(ws, start)
    ensures Different(ws)
  {
    hide Position;
  }

  // -------------------------------------------------------------- lines 190-195

  function EsWrites(p: Plan): seq<Write> {
    var r := p.regs;
    [Write(HOST_ES, HostSelector(r.es)), Write(GUEST_ES, Wide(r.es)), Write(GUEST_ES_BASE, ZERO),
     Write(GUEST_ES_LIMIT, Word(0xffff_ffff)), Write(GUEST_ES_ACCESS_RIGHTS, UNUSABLE_AR)]
  }

  function EsPart(p: Plan, f: Vmcs): Vmcs {
    var r := p.regs;
    f.(
      host16 := f.host16.(es := HostSelector(r.es)),
      guest16 := f.guest16.(es := Wide(r.es)),
      guestNatural := f.guestNatural.(bases := f.guestNatural.bases.(es := ZERO)),
      guest32 := f.guest32.(limits := f.guest32.limits.(es := Word(0xffff_ffff)),
                              rights := f.guest32.rights.(es := UNUSABLE_AR)))
  }

  lemma EsProper(p: Plan)
    ensures AllProper(EsWrites(p))
  {
    SmallSelector(p.regs.es);
    SmallWide(p.regs.es);
    SmallConstants();
    hide Small16, Small32, HostSelector, Wide;
  }

  lemma EsPlaced(p: Plan)
    ensures |EsWrites(p)| == 5 && Placed(EsWrites(p), 0)
  {
    hide HostSelector, Wide;
  }

  lemma EsPut(p: Plan, v: Vmcs)
    ensures PutAll(v, EsWrites(p)) == EsPart(p, v)
  {
    PutFiveSeries(v, EsWrites(p));
    hide PutAll, HostSelector, Wide;
  }

  // -------------------------------------------------------------- lines 197-204

  function CsWrites(p: Plan): seq<Write> {
    var r := p.regs;
    [Write(HOST_CS, HostSelector(r.cs)), Write(GUEST_CS, Wide(r.cs)), Write(GUEST_CS_BASE, ZERO),
     Write(GUEST_CS_LIMIT, FlatLimit(Ar(p.env, r.cs))), Write(GUEST_CS_ACCESS_RIGHTS, Ar(p.env, r.cs))]
  }

  function CsPart(p: Plan, f: Vmcs): Vmcs {
    var r := p.regs;
    f.(
      host16 := f.host16.(cs := HostSelector(r.cs)),
      guest16 := f.guest16.(cs := Wide(r.cs)),
      guestNatural := f.guestNatural.(bases := f.guestNatural.bases.(cs := ZERO)),
      guest32 := f.guest32.(limits := f.guest32.limits.(cs := FlatLimit(Ar(p.env, r.cs))),
                              rights := f.guest32.rights.(cs := Ar(p.env, r.cs))))
  }

  lemma CsProper(p: Plan)
    ensures AllProper(CsWrites(p))
  {
    SmallSelector(p.regs.cs);
    SmallWide(p.regs.cs);
    SmallLimit(Ar(p.env, p.regs.cs));
    SmallRights(p.env.lar(p.regs.cs));
    hide Small16, Small32, HostSelector, Wide, AccessRights, FlatLimit;
  }

  lemma CsPlaced(p: Plan)
    ensures |CsWrites(p)| == 5 && Placed(CsWrites(p), 5)
  {
    hide HostSelector, Wide, Ar, FlatLimit;
  }

  lemma CsPut(p: Plan, v: Vmcs)
    ensures PutAll(v, CsWrites(p)) == CsPart(p, v)
  {
    PutFiveSeries(v, CsWrites(p));
    hide PutAll, HostSelector, Wide, Ar, FlatLimit;
  }

  // -------------------------------------------------------------- lines 206-213

  function SsWrites(p: Plan): seq<Write> {
    var r := p.regs;
    [Write(HOST_SS, HostSelector(r.ss)), Write(GUEST_SS, Wide(r.ss)), Write(GUEST_SS_BASE, ZERO),
     Write(GUEST_SS_LIMIT, FlatLimit(Ar(p.env, r.ss))), Write(GUEST_SS_ACCESS_RIGHTS, Ar(p.env, r.ss))]
  }

  function SsPart(p: Plan, f: Vmcs): Vmcs {
    var r := p.regs;
    f.(
      host16 := f.host16.(ss := HostSelector(r.ss)),
      guest16 := f.guest16.(ss := Wide(r.ss)),
      guestNatural := f.guestNatural.(bases := f.guestNatural.bases.(ss := ZERO)),
      guest32 := f.guest32.(limits := f.guest32.limits.(ss := FlatLimit(Ar(p.env, r.ss))),
                              rights := f.guest32.rights.(ss := Ar(p.env, r.ss))))
  }

  lemma SsProper(p: Plan)
    ensures AllProper(SsWrites(p))
  {
    SmallSelector(p.regs.ss);
    SmallWide(p.regs.ss);
    SmallLimit(Ar(p.env, p.regs.ss));
    SmallRights(p.env.lar(p.regs.ss));
    hide Small16, Small32, HostSelector, Wide, AccessRights, FlatLimit;
  }

  lemma SsPlaced(p: Plan)
    ensures |SsWrites(p)| == 5 && Placed(SsWrites(p), 10)
  {
    hide HostSelector, Wide, Ar, FlatLimit;
  }

  lemma SsPut(p: Plan, v: Vmcs)
    ensures PutAll(v, SsWrites(p)) == SsPart(p, v)
  {
    PutFiveSeries(v, SsWrites(p));
    hide PutAll, HostSelector, Wide, Ar, FlatLimit;
  }

  // -------------------------------------------------------------- lines 215-220

  function DsWrites(p: Plan): seq<Write> {
    var r := p.regs;
    [Write(HOST_DS, HostSelector(r.ds)), Write(GUEST_DS, Wide(r.ds)), Write(GUEST_DS_BASE, ZERO),
     Write(GUEST_DS_LIMIT, Word(0xffff_ffff)), Write(GUEST_DS_ACCESS_RIGHTS, UNUSABLE_AR)]
  }

  function DsPart(p: Plan, f: Vmcs): Vmcs {
    var r := p.regs;
    f.(
      host16 := f.host16.(ds := HostSelector(r.ds)),
      guest16 := f.guest16.(ds := Wide(r.ds)),
      guestNatural := f.guestNatural.(bases := f.guestNatural.bases.(ds := ZERO)),
      guest32 := f.guest32.(limits := f.guest32.limits.(ds := Word(0xffff_ffff)),
                              rights := f.guest32.rights.(ds := UNUSABLE_AR)))
  }

  lemma DsProper(p: Plan)
    ensures AllProper(DsWrites(p))
  {
    SmallSelector(p.regs.ds);
    SmallWide(p.regs.ds);
    SmallConstants();
    hide Small16, Small32, HostSelector, Wide;
  }

  lemma DsPlaced(p: Plan)
    ensures |DsWrites(p)| == 5 && Placed(DsWrites(p), 15)
  {
    hide HostSelector, Wide;
  }

  lemma DsPut(p: Plan, v: Vmcs)
    ensures PutAll(v, DsWrites(p)) == DsPart(p, v)
  {
    PutFiveSeries(v, DsWrites(p));
    hide PutAll, HostSelector, Wide;
  }

  // -------------------------------------------------------------- lines 222-229

  function FsWrites(p: Plan): seq<Write> {
    var r := p.regs;
    [Write(HOST_FS, HostSelector(r.fs)), Write(GUEST_FS, Wide(r.fs)), Write(GUEST_FS_BASE, r.fsBase),
     Write(HOST_FS_BASE, r.fsBase), Write(GUEST_FS_LIMIT, Word(0xffff_ffff)),
     Write(GUEST_FS_ACCESS_RIGHTS, UNUSABLE_AR)]
  }

  function FsPart(p: Plan, f: Vmcs): Vmcs {
    var r := p.regs;
    f.(
      host16 := f.host16.(fs := HostSelector(r.fs)),
      guest16 := f.guest16.(fs := Wide(r.fs)),
      guestNatural := f.guestNatural.(bases := f.guestNatural.bases.(fs := r.fsBase)),
      hostNatural := f.hostNatural.(fsBase := r.fsBase),
      guest32 := f.guest32.(limits := f.guest32.limits.(fs := Word(0xffff_ffff)),
                              rights := f.guest32.rights.(fs := UNUSABLE_AR)))
  }

  lemma FsProper(p: Plan)
    ensures AllProper(FsWrites(p))
  {
    SmallSelector(p.regs.fs);
    SmallWide(p.regs.fs);
    SmallConstants();
    hide Small16, Small32, HostSelector, Wide;
  }

  lemma FsPlaced(p: Plan)
    ensures |FsWrites(p)| == 6 && Placed(FsWrites(p), 20)
  {
    hide HostSelector, Wide;
  }

  lemma FsPut(p: Plan, v: Vmcs)
    ensures PutAll(v, FsWrites(p)) == FsPart(p, v)
  {
    hide PutAll, HostSelector, Wide;
    PutSixSeries(v, FsWrites(p));
  }

  // -------------------------------------------------------------- lines 231-238

  function GsWrites(p: Plan): seq<Write> {
    var r := p.regs;
    [Write(HOST_GS, HostSelector(r.gs)), Write(GUEST_GS, Wide(r.gs)), Write(GUEST_GS_BASE, r.gsBase),
     Write(HOST_GS_BASE, r.gsBase), Write(GUEST_GS_LIMIT, Word(0xffff_ffff)),
     Write(GUEST_GS_ACCESS_RIGHTS, UNUSABLE_AR)]
  }

  function GsPart(p: Plan, f: Vmcs): Vmcs {
    var r := p.regs;
    f.(
      host16 := f.host16.(gs := HostSelector(r.gs)),
      guest16 := f.guest16.(gs := Wide(r.gs)),
      guestNatural := f.guestNatural.(bases := f.guestNatural.bases.(gs := r.gsBase)),
      hostNatural := f.hostNatural.(gsBase := r.gsBase),
      guest32 := f.guest32.(limits := f.guest32.limits.(gs := Word(0xffff_ffff)),
                              rights := f.guest32.rights.(gs := UNUSABLE_AR)))
  }

  lemma GsProper(p: Plan)
    ensures AllProper(GsWrites(p))
  {
    SmallSelector(p.regs.gs);
    SmallWide(p.regs.gs);
    SmallConstants();
    hide Small16, Small32, HostSelector, Wide;
  }

  lemma GsPlaced(p: Plan)
    ensures |GsWrites(p)| == 6 && Placed(GsWrites(p), 26)
  {
    hide HostSelector, Wide;
  }

  lemma GsPut(p: Plan, v: Vmcs)
    ensures PutAll(v, GsWrites(p)) == GsPart(p, v)
  {
    hide PutAll, HostSelector, Wide;
    PutSixSeries(v, GsWrites(p));
  }

  // -------------------------------------------------------------- lines 240-244

  function LdtrWrites(p: Plan): seq<Write> {
    var r := p.regs;
    [Write(GUEST_LDTR, Wide(r.ldtr)), Write(GUEST_LDTR_BASE, ZERO), Write(GUEST_LDTR_LIMIT, Word(0xffff_ffff)),
     Write(GUEST_LDTR_ACCESS_RIGHTS, UNUSABLE_AR)]
  }

  function LdtrPart(p: Plan, f: Vmcs): Vmcs {
    var r := p.regs;
    f.(
      guest16 := f.guest16.(ldtr := Wide(r.ldtr)),
      guestNatural := f.guestNatural.(bases := f.guestNatural.bases.(ldtr := ZERO)),
      guest32 := f.guest32.(limits := f.guest32.limits.(ldtr := Word(0xffff_ffff)),
                              rights := f.guest32.rights.(ldtr := UNUSABLE_AR)))
  }

  lemma LdtrProper(p: Plan)
    ensures AllProper(LdtrWrites(p))
  {
    SmallWide(p.regs.ldtr);
    SmallConstants();
    hide Small16, Small32, Wide;
  }

  lemma LdtrPlaced(p: Plan)
    ensures |LdtrWrites(p)| == 4 && Placed(LdtrWrites(p), 32)
  {
    hide Wide;
  }

  lemma LdtrPut(p: Plan, v: Vmcs)
    ensures PutAll(v, LdtrWrites(p)) == LdtrPart(p, v)
  {
    PutFourSeries(v, LdtrWrites(p));
    hide PutAll, Wide;
  }

  // -------------------------------------------------------------- lines 246-254

  function TableWrites(p: Plan): seq<Write> {
    var r := p.regs;
    [Write(GUEST_GDTR_LIMIT, Wide(r.gdtr.limit)), Write(GUEST_GDTR_BASE, r.gdtr.base),
     Write(HOST_GDTR_BASE, r.gdtr.base), Write(GUEST_IDTR_LIMIT, Wide(r.idtr.limit)),
     Write(GUEST_IDTR_BASE, r.idtr.base), Write(HOST_IDTR_BASE, r.idtr.base)]
  }

  function TablePart(p: Plan, f: Vmcs): Vmcs {
    var r := p.regs;
    f.(
      guest32 := f.guest32.(limits := f.guest32.limits.(gdtr := Wide(r.gdtr.limit), idtr := Wide(r.idtr.limit))),
      guestNatural := f.guestNatural.(bases := f.guestNatural.bases.(gdtr := r.gdtr.base, idtr := r.idtr.base)),
      hostNatural := f.hostNatural.(gdtrBase := r.gdtr.base, idtrBase := r.idtr.base))
  }

  lemma TableProper(p: Plan)
    ensures AllProper(TableWrites(p))
  {
    SmallWide(p.regs.gdtr.limit);
    SmallWide(p.regs.idtr.limit);
    hide Small16, Small32, Wide;
  }

  lemma TablePlaced(p: Plan)
    ensures |TableWrites(p)| == 6 && Placed(TableWrites(p), 36)
  {
    hide Wide;
  }

  lemma TablePut(p: Plan, v: Vmcs)
    ensures PutAll(v, TableWrites(p)) == TablePart(p, v)
  {
    PutSixSeries(v, TableWrites(p));
    hide PutAll, Wide;
  }

  // -------------------------------------------------------------- lines 256-269

  function TrWrites(p: Plan): seq<Write> {
    var r := p.regs;
    [Write(GUEST_TR, HostSelector(r.tr)), Write(HOST_TR, Wide(r.tr)),
     Write(GUEST_TR_LIMIT, Wide(Limit16(p.env.lsl(r.tr)))), Write(GUEST_TR_ACCESS_RIGHTS, Ar(p.env, r.tr)),
     Write(GUEST_TR_BASE, TrBase(p.env, r)), Write(HOST_TR_BASE, TrBase(p.env, r))]
  }

  function TrPart(p: Plan, f: Vmcs): Vmcs {
    var r := p.regs;
    f.(
      guest16 := f.guest16.(tr := HostSelector(r.tr)),
      host16 := f.host16.(tr := Wide(r.tr)),
      guest32 := f.guest32.(limits := f.guest32.limits.(tr := Wide(Limit16(p.env.lsl(r.tr)))),
                              rights := f.guest32.rights.(tr := Ar(p.env, r.tr))),
      guestNatural := f.guestNatural.(bases := f.guestNatural.bases.(tr := TrBase(p.env, r))),
      hostNatural := f.hostNatural.(trBase := TrBase(p.env, r)))
  }

  lemma TrProper(p: Plan)
    ensures AllProper(TrWrites(p))
  {
    SmallSelector(p.regs.tr);
    SmallWide(p.regs.tr);
    SmallWide(Limit16(p.env.lsl(p.regs.tr)));
    SmallRights(p.env.lar(p.regs.tr));
    hide Small16, Small32, HostSelector, Wide, AccessRights, Limit16, TrBase;
  }

  lemma TrPlaced(p: Plan)
    ensures |TrWrites(p)| == 6 && Placed(TrWrites(p), 42)
  {
    hide HostSelector, Wide, Ar, Limit16, TrBase;
  }

  lemma TrPut(p: Plan, v: Vmcs)
    ensures PutAll(v, TrWrites(p)) == TrPart(p, v)
  {
    hide PutAll, HostSelector, Wide, Ar, Limit16, TrBase;
    PutSixSeries(v, TrWrites(p));
  }

  // -------------------------------------------------------------- lines 271-279

  function WideControlWrites(p: Plan): seq<Write> {
    [Write(IO_BITMAP_A_ADDR, p.ioA), Write(IO_BITMAP_B_ADDR, p.ioB), Write(EXEC_VMCS_PTR, ZERO),
     Write(TSC_OFFSET, ZERO), Write(VMCS_LINK_PTR, Word(0xffff_ffff_ffff_ffff)), Write(GUEST_IA32_DEBUGCTL, ZERO)]
  }

  function WideControlPart(p: Plan, f: Vmcs): Vmcs {
    f.(
      control64 := f.control64.(ioBitmapAAddr := p.ioA, ioBitmapBAddr := p.ioB, execVmcsPtr := ZERO, tscOffset :=
        ZERO),
      guest64 := f.guest64.(linkPtr := Word(0xffff_ffff_ffff_ffff), debugctl := ZERO))
  }

  lemma WideControlProper(p: Plan)
    ensures AllProper(WideControlWrites(p))
  {
    hide Small16, Small32;
  }

  lemma WideControlPlaced(p: Plan)
    ensures |WideControlWrites(p)| == 6 && Placed(WideControlWrites(p), 48)
  {
  }

  lemma WideControlPut(p: Plan, v: Vmcs)
    ensures PutAll(v, WideControlWrites(p)) == WideControlPart(p, v)
  {
    PutSixSeries(v, WideControlWrites(p));
    hide PutAll;
  }

  // -------------------------------------------------------------- lines 281-290

  function ExecutionControlWrites(p: Plan): seq<Write> {
    [Write(PIN_BASED_VM_CTLS, Wide32(PinWord(p.env.caps))), Write(PROC_BASED_VM_CTLS, Wide32(ProcWord(p.env.caps))),
     Write(EXCEPTION_BITMAP, Word(0xffff_ffff)), Write(PF_ECODE_MASK, ZERO), Write(PF_ECODE_MATCH, ZERO),
     Write(CR3_TARGET_CNT, ZERO)]
  }

  function ExecutionControlPart(p: Plan, f: Vmcs): Vmcs {
    f.(
      control32 := f.control32.(
          pinBasedVmCtls := Wide32(PinWord(p.env.caps)), procBasedVmCtls := Wide32(ProcWord(p.env.caps)),
          exceptionBitmap := Word(0xffff_ffff), pfEcodeMask := ZERO, pfEcodeMatch := ZERO, cr3TargetCnt := ZERO))
  }

  lemma ExecutionControlProper(p: Plan)
    ensures AllProper(ExecutionControlWrites(p))
  {
    SmallControl(PinWord(p.env.caps));
    SmallControl(ProcWord(p.env.caps));
    SmallConstants();
    hide Small16, Small32, Wide32, PinWord, ProcWord;
  }

  lemma ExecutionControlPlaced(p: Plan)
    ensures |ExecutionControlWrites(p)| == 6 && Placed(ExecutionControlWrites(p), 54)
  {
    hide Wide32, PinWord, ProcWord;
  }

  lemma ExecutionControlPut(p: Plan, v: Vmcs)
    ensures PutAll(v, ExecutionControlWrites(p)) == ExecutionControlPart(p, v)
  {
    PutSixSeries(v, ExecutionControlWrites(p));
    hide PutAll, Wide32, PinWord, ProcWord;
  }

  // -------------------------------------------------------------- lines 291-295

  function ExitControlWrites(p: Plan): seq<Write> {
    [Write(VMEXIT_CTLS, Wide32(ExitWord(p.env.caps))), Write(VMEXIT_MSR_STORE_CNT, ZERO),
     Write(VMEXIT_MSR_LOAD_CNT, ZERO)]
  }

  function ExitControlPart(p: Plan, f: Vmcs): Vmcs {
    f.(
      control32 := f.control32.(
          vmexitCtls := Wide32(ExitWord(p.env.caps)), vmexitMsrStoreCnt := ZERO, vmexitMsrLoadCnt := ZERO))
  }

  lemma ExitControlProper(p: Plan)
    ensures AllProper(ExitControlWrites(p))
  {
    SmallControl(ExitWord(p.env.caps));
    SmallConstants();
    hide Small16, Small32, Wide32, ExitWord;
  }

  lemma ExitControlPlaced(p: Plan)
    ensures |ExitControlWrites(p)| == 3 && Placed(ExitControlWrites(p), 60)
  {
    hide Wide32, ExitWord;
  }

  lemma ExitControlPut(p: Plan, v: Vmcs)
    ensures PutAll(v, ExitControlWrites(p)) == ExitControlPart(p, v)
  {
    PutThreeSeries(v, ExitControlWrites(p));
    hide PutAll, Wide32, ExitWord;
  }

  // -------------------------------------------------------------- lines 296-302

  function EntryControlWrites(p: Plan): seq<Write> {
    [Write(VMENTRY_CTLS, Wide32(EntryWord(p.env.caps))), Write(VMENTRY_MSR_LOAD_CNT, ZERO),
     Write(VMENTRY_INT_INFO, ZERO), Write(VMENTRY_ECODE, ZERO), Write(VMENTRY_INSTR_LEN, ZERO)]
  }

  function EntryControlPart(p: Plan, f: Vmcs): Vmcs {
    f.(
      control32 := f.control32.(
          vmentryCtls := Wide32(EntryWord(p.env.caps)), vmentryMsrLoadCnt := ZERO, vmentryIntInfo := ZERO,
          vmentryEcode := ZERO, vmentryInstrLen := ZERO))
  }

  lemma EntryControlProper(p: Plan)
    ensures AllProper(EntryControlWrites(p))
  {
    SmallControl(EntryWord(p.env.caps));
    SmallConstants();
    hide Small16, Small32, Wide32, EntryWord;
  }

  lemma EntryControlPlaced(p: Plan)
    ensures |EntryControlWrites(p)| == 5 && Placed(EntryControlWrites(p), 63)
  {
    hide Wide32, EntryWord;
  }

  lemma EntryControlPut(p: Plan, v: Vmcs)
    ensures PutAll(v, EntryControlWrites(p)) == EntryControlPart(p, v)
  {
    hide PutAll, Wide32, EntryWord;
    PutFiveSeries(v, EntryControlWrites(p));
  }

  // -------------------------------------------------------------- lines 304-311

  function GuestStateWrites(p: Plan): seq<Write> {
    var r := p.regs;
    [Write(GUEST_INTERRUPTIBILITY_STATE, ZERO), Write(GUEST_ACTIVITY_STATE, ZERO), Write(GUEST_SMBASE, ZERO),
     Write(GUEST_IA32_SYSENTER_CS, SysenterCs(r)), Write(HOST_IA32_SYSENTER_CS, SysenterCs(r))]
  }

  function GuestStatePart(p: Plan, f: Vmcs): Vmcs {
    var r := p.regs;
    f.(
      guest32 := f.guest32.(interruptibilityState := ZERO, activityState := ZERO, smbase := ZERO, sysenterCs :=
        SysenterCs(r)),
      host32 := f.host32.(sysenterCs := SysenterCs(r)))
  }

  lemma GuestStateProper(p: Plan)
    ensures AllProper(GuestStateWrites(p))
  {
    SmallConstants();
    SmallSysenter(p.regs);
    hide Small16, Small32, SysenterCs;
  }

  lemma GuestStatePlaced(p: Plan)
    ensures |GuestStateWrites(p)| == 5 && Placed(GuestStateWrites(p), 68)
  {
    hide SysenterCs;
  }

  lemma GuestStatePut(p: Plan, v: Vmcs)
    ensures PutAll(v, GuestStateWrites(p)) == GuestStatePart(p, v)
  {
    PutFiveSeries(v, GuestStateWrites(p));
    hide PutAll, SysenterCs;
  }

  // -------------------------------------------------------------- lines 313-324

  function Cr0Cr4Writes(p: Plan): seq<Write> {
    var r := p.regs;
    [Write(GUEST_CR0, r.cr0), Write(HOST_CR0, r.cr0), Write(CR0_GUEST_HOST_MASK, ZERO), Write(CR0_READ_SHADOW, ZERO),
     Write(GUEST_CR4, r.cr4), Write(HOST_CR4, r.cr4), Write(CR4_GUEST_HOST_MASK, ZERO), Write(CR4_READ_SHADOW, ZERO)]
  }

  function Cr0Cr4Part(p: Plan, f: Vmcs): Vmcs {
    var r := p.regs;
    f.(
      guestNatural := f.guestNatural.(cr0 := r.cr0, cr4 := r.cr4),
      hostNatural := f.hostNatural.(cr0 := r.cr0, cr4 := r.cr4),
      controlNatural := f.controlNatural.(cr0GuestHostMask := ZERO, cr0ReadShadow := ZERO,
                                            cr4GuestHostMask := ZERO, cr4ReadShadow := ZERO))
  }

  lemma Cr0Cr4Proper(p: Plan)
    ensures AllProper(Cr0Cr4Writes(p))
  {
    hide Small16, Small32;
  }

  lemma Cr0Cr4Placed(p: Plan)
    ensures |Cr0Cr4Writes(p)| == 8 && Placed(Cr0Cr4Writes(p), 73)
  {
    hide PutAll;
  }

  lemma Cr0Cr4Put(p: Plan, v: Vmcs)
    ensures PutAll(v, Cr0Cr4Writes(p)) == Cr0Cr4Part(p, v)
  {
    PutEightSeries(v, Cr0Cr4Writes(p));
  }

  // -------------------------------------------------------------- lines 326-332

  function Cr3Writes(p: Plan): seq<Write> {
    var r := p.regs;
    [Write(GUEST_CR3, r.cr3), Write(HOST_CR3, r.cr3), Write(CR3_TARGET_VALUE_0, ZERO),
     Write(CR3_TARGET_VALUE_1, ZERO), Write(CR3_TARGET_VALUE_2, ZERO), Write(CR3_TARGET_VALUE_3, ZERO)]
  }

  function Cr3Part(p: Plan, f: Vmcs): Vmcs {
    var r := p.regs;
    f.(
      guestNatural := f.guestNatural.(cr3 := r.cr3),
      hostNatural := f.hostNatural.(cr3 := r.cr3),
      controlNatural := f.controlNatural.(cr3TargetValue0 := ZERO, cr3TargetValue1 := ZERO,
                                            cr3TargetValue2 := ZERO, cr3TargetValue3 := ZERO))
  }

  lemma Cr3Proper(p: Plan)
    ensures AllProper(Cr3Writes(p))
  {
    hide Small16, Small32;
  }

  lemma Cr3Placed(p: Plan)
    ensures |Cr3Writes(p)| == 6 && Placed(Cr3Writes(p), 81)
  {
    hide PutAll;
  }

  lemma Cr3Put(p: Plan, v: Vmcs)
    ensures PutAll(v, Cr3Writes(p)) == Cr3Part(p, v)
  {
    PutSixSeries(v, Cr3Writes(p));
  }

  // -------------------------------------------------------------- lines 334-347

  function FlowWrites(p: Plan): seq<Write> {
    [Write(GUEST_DR7, Word(0x400)), Write(GUEST_RSP, ZERO), Write(GUEST_RIP, p.env.guestCode),
     Write(HOST_RIP, p.env.code(VMX_EXIT)), Write(GUEST_RFLAGS, p.rflags), Write(GUEST_PENDING_DBG_EXCEPTION, ZERO)]
  }

  function FlowPart(p: Plan, f: Vmcs): Vmcs {
    f.(
      guestNatural := f.guestNatural.(dr7 := Word(0x400), rsp := ZERO, rip := p.env.guestCode, rflags := p.rflags,
                                        pendingDbgException := ZERO),
      hostNatural := f.hostNatural.(rip := p.env.code(VMX_EXIT)))
  }

  lemma FlowProper(p: Plan)
    ensures AllProper(FlowWrites(p))
  {
    hide Small16, Small32;
  }

  lemma FlowPlaced(p: Plan)
    ensures |FlowWrites(p)| == 6 && Placed(FlowWrites(p), 87)
  {
  }

  lemma FlowPut(p: Plan, v: Vmcs)
    ensures PutAll(v, FlowWrites(p)) == FlowPart(p, v)
  {
    PutSixSeries(v, FlowWrites(p));
    hide PutAll;
  }

  // -------------------------------------------------------------- lines 349-355

  function SysenterWrites(p: Plan): seq<Write> {
    var r := p.regs;
    [Write(GUEST_IA32_SYSENTER_ESP, r.sysenterEsp), Write(HOST_IA32_SYSENTER_ESP, r.sysenterEsp),
     Write(GUEST_IA32_SYSENTER_EIP, r.sysenterEsp), Write(HOST_IA32_SYSENTER_EIP, r.sysenterEip)]
  }

  function SysenterPart(p: Plan, f: Vmcs): Vmcs {
    var r := p.regs;
    f.(
      guestNatural := f.guestNatural.(sysenterEsp := r.sysenterEsp, sysenterEip := r.sysenterEsp),
      hostNatural := f.hostNatural.(sysenterEsp := r.sysenterEsp, sysenterEip := r.sysenterEip))
  }

  lemma SysenterProper(p: Plan)
    ensures AllProper(SysenterWrites(p))
  {
    hide Small16, Small32;
  }

  lemma SysenterPlaced(p: Plan)
    ensures |SysenterWrites(p)| == 4 && Placed(SysenterWrites(p), 93)
  {
  }

  lemma SysenterPut(p: Plan, v: Vmcs)
    ensures PutAll(v, SysenterWrites(p)) == SysenterPart(p, v)
  {
    PutFourSeries(v, SysenterWrites(p));
    hide PutAll;
  }

  // ------------------------------------------------------------- all of them

  /** The writes for segments and descriptor tables. */
  function HostMirrorWrites(p: Plan): seq<Write> {
    EsWrites(p) + CsWrites(p) + SsWrites(p) + DsWrites(p) + FsWrites(p) + GsWrites(p) + LdtrWrites(p) +
      TableWrites(p) + TrWrites(p)
  }

  /** The writes for the rest. */
  function RemainingWrites(p: Plan): seq<Write> {
    WideControlWrites(p) + ExecutionControlWrites(p) + ExitControlWrites(p) + EntryControlWrites(p) +
      GuestStateWrites(p) + Cr0Cr4Writes(p) + Cr3Writes(p) + FlowWrites(p) + SysenterWrites(p)
  }

  /** Every write of initialize_vmcs. */
  function Writes(p: Plan): seq<Write> { HostMirrorWrites(p) + RemainingWrites(p) }

  function HostMirrorPart(p: Plan, v: Vmcs): Vmcs {
    TrPart(p, TablePart(p, LdtrPart(p, GsPart(p, FsPart(p, DsPart(p, SsPart(p, CsPart(p, EsPart(p, v)))))))))
  }

  function RemainingPart(p: Plan, v: Vmcs): Vmcs {
    SysenterPart(p, FlowPart(p, Cr3Part(p, Cr0Cr4Part(p, GuestStatePart(p, EntryControlPart(p, ExitControlPart(p,
      ExecutionControlPart(p, WideControlPart(p, v)))))))))
  }

  lemma HostMirrorMeans(p: Plan, v: Vmcs)
    ensures AllProper(HostMirrorWrites(p)) && Placed(HostMirrorWrites(p), 0) && |HostMirrorWrites(p)| == 48
    ensures PutAll(v, HostMirrorWrites(p)) == HostMirrorPart(p, v)
  {
    hide Put, Proper, Position, PutAll, EsPart, CsPart, SsPart, DsPart, FsPart, GsPart, LdtrPart, TablePart,
      TrPart, EsWrites, CsWrites, SsWrites, DsWrites, FsWrites, GsWrites, LdtrWrites, TableWrites, TrWrites;
    var done, left := [], v;
    EsProper(p); EsPlaced(p); EsPut(p, left);
    done, left := EsWrites(p), EsPart(p, left);
    CsProper(p); CsPlaced(p); CsPut(p, left);
    Join(v, done, CsWrites(p), 0);
    done, left := done + CsWrites(p), CsPart(p, left);
    SsProper(p); SsPlaced(p); SsPut(p, left);
    Join(v, done, SsWrites(p), 0);
    done, left := done + SsWrites(p), SsPart(p, left);
    DsProper(p); DsPlaced(p); DsPut(p, left);
    Join(v, done, DsWrites(p), 0);
    done, left := done + DsWrites(p), DsPart(p, left);
    FsProper(p); FsPlaced(p); FsPut(p, left);
    Join(v, done, FsWrites(p), 0);
    done, left := done + FsWrites(p), FsPart(p, left);
    GsProper(p); GsPlaced(p); GsPut(p, left);
    Join(v, done, GsWrites(p), 0);
    done, left := done + GsWrites(p), GsPart(p, left);
    LdtrProper(p); LdtrPlaced(p); LdtrPut(p, left);
    Join(v, done, LdtrWrites(p), 0);
    done, left := done + LdtrWrites(p), LdtrPart(p, left);
    TableProper(p); TablePlaced(p); TablePut(p, left);
    Join(v, done, TableWrites(p), 0);
    done, left := done + TableWrites(p), TablePart(p, left);
    TrProper(p); TrPlaced(p); TrPut(p, left);
    Join(v, done, TrWrites(p), 0);
    done, left := done + TrWrites(p), TrPart(p, left);
  }

  lemma RemainingMeans(p: Plan, v: Vmcs)
    ensures AllProper(RemainingWrites(p)) && Placed(RemainingWrites(p), 48) && |RemainingWrites(p)| == 49
    ensures PutAll(v, RemainingWrites(p)) == RemainingPart(p, v)
  {
    hide Put, Proper, Position, PutAll, WideControlPart, ExecutionControlPart, ExitControlPart,
      EntryControlPart, GuestStatePart, Cr0Cr4Part, Cr3Part, FlowPart, SysenterPart, WideControlWrites,
      ExecutionControlWrites, ExitControlWrites, EntryControlWrites, GuestStateWrites, Cr0Cr4Writes, Cr3Writes,
      FlowWrites, SysenterWrites;
    var done, left := [], v;
    WideControlProper(p); WideControlPlaced(p); WideControlPut(p, left);
    done, left := WideControlWrites(p), WideControlPart(p, left);
    ExecutionControlProper(p); ExecutionControlPlaced(p); ExecutionControlPut(p, left);
    Join(v, done, ExecutionControlWrites(p), 48);
    done, left := done + ExecutionControlWrites(p), ExecutionControlPart(p, left);
    ExitControlProper(p); ExitControlPlaced(p); ExitControlPut(p, left);
    Join(v, done, ExitControlWrites(p), 48);
    done, left := done + ExitControlWrites(p), ExitControlPart(p, left);
    EntryControlProper(p); EntryControlPlaced(p); EntryControlPut(p, left);
    Join(v, done, EntryControlWrites(p), 48);
    done, left := done + EntryControlWrites(p), EntryControlPart(p, left);
    GuestStateProper(p); GuestStatePlaced(p); GuestStatePut(p, left);
    Join(v, done, GuestStateWrites(p), 48);
    done, left := done + GuestStateWrites(p), GuestStatePart(p, left);
    Cr0Cr4Proper(p); Cr0Cr4Placed(p); Cr0Cr4Put(p, left);
    Join(v, done, Cr0Cr4Writes(p), 48);
    done, left := done + Cr0Cr4Writes(p), Cr0Cr4Part(p, left);
    Cr3Proper(p); Cr3Placed(p); Cr3Put(p, left);
    Join(v, done, Cr3Writes(p), 48);
    done, left := done + Cr3Writes(p), Cr3Part(p, left);
    FlowProper(p); FlowPlaced(p); FlowPut(p, left);
    Join(v, done, FlowWrites(p), 48);
    done, left := done + FlowWrites(p), FlowPart(p, left);
    SysenterProper(p); SysenterPlaced(p); SysenterPut(p, left);
    Join(v, done, SysenterWrites(p), 48);
    done, left := done + SysenterWrites(p), SysenterPart(p, left);
  }

  lemma WritesMean(p: Plan, v: Vmcs)
    ensures AllProper(Writes(p)) && Placed(Writes(p), 0) && |Writes(p)| == 97
    ensures PutAll(v, Writes(p)) == RemainingPart(p, HostMirrorPart(p, v))
  {
    hide Put, Proper, Position, PutAll, HostMirrorWrites, RemainingWrites, HostMirrorPart, RemainingPart;
    HostMirrorMeans(p, v);
    RemainingMeans(p, HostMirrorPart(p, v));
    Join(v, HostMirrorWrites(p), RemainingWrites(p), 0);
  }

  lemma HostMirrorWritesListed(p: Plan)
    ensures HostMirrorWrites(p) == EsWrites(p) + CsWrites(p) + SsWrites(p) + DsWrites(p) + FsWrites(p) + GsWrites(p)
      + LdtrWrites(p) + TableWrites(p) + TrWrites(p)
  {
    hide EsWrites, CsWrites, SsWrites, DsWrites, FsWrites, GsWrites, LdtrWrites, TableWrites, TrWrites;
  }

  lemma RemainingWritesListed(p: Plan)
    ensures RemainingWrites(p) == WideControlWrites(p) + ExecutionControlWrites(p) + ExitControlWrites(p) +
      EntryControlWrites(p) + GuestStateWrites(p) + Cr0Cr4Writes(p) + Cr3Writes(p) + FlowWrites(p) + SysenterWrites(p)
  {
    hide WideControlWrites, ExecutionControlWrites, ExitControlWrites, EntryControlWrites, GuestStateWrites,
      Cr0Cr4Writes, Cr3Writes, FlowWrites, SysenterWrites;
  }

  lemma WritesListed(p: Plan)
    ensures Writes(p) == HostMirrorWrites(p) + RemainingWrites(p)
  {
    hide HostMirrorWrites, RemainingWrites;
  }

  lemma Join(v: Vmcs, a: seq<Write>, b: seq<Write>, start: int)
    requires AllProper(a) && AllProper(b) && Placed(a, start) && Placed(b, start + |a|)
    ensures AllProper(a + b) && Placed(a + b, start)
    ensures PutAll(v, a + b) == PutAll(PutAll(v, a), b)
  {
    hide Put, Proper, Position;
    PlacedAppended(a, b, start);
    PutAppended(v, a, b);
  }

  /** The writes are to 97 different fields, and the processor carries out each in full. */
  lemma WritesDiffer(p: Plan)
    ensures |Writes(p)| == 97 && Different(Writes(p)) && AllProper(Writes(p))
  {
    WritesMean(p, BLANK);
    hide *;
    PlacedDifferent(Writes(p), 0);
  }

  lemma PartsAreImage(p: Plan, v: Vmcs)
    ensures RemainingPart(p, HostMirrorPart(p, v)) == Image(p, v)
  {
    hide HostSelector, Wide, Wide32, Ar, FlatLimit, Limit16, TrBase, SysenterCs, PinWord, ProcWord, ExitWord,
      EntryWord;
  }

  /** Whatever the VMCS held, the writes turn it into the image, and so does every
      permutation of them. */
  lemma WritesGiveImage(p: Plan, v: Vmcs, ws: seq<Write>)
    requires multiset(ws) == multiset(Writes(p))
    ensures PutAll(v, ws) == Image(p, v)
  {
    WritesDiffer(p);
    WritesMean(p, v);
    PartsAreImage(p, v);
    hide *;
    AnyOrder(v, Writes(p), ws);
  }

  lemma NoPlace(f: Field)
    ensures f in {HOST_RSP, VM_INSTRUCTION_ERROR, EXIT_REASON} ==> Position(f) == -1
  {
  }

  lemma PlacedKnown(f: Field)
    ensures Position(f) >= 0 ==> Known(f)
  {
  }

  predicate Written(p: Plan, f: Field) { exists w :: w in Writes(p) && w.field == f }

  lemma WrittenPlaced(p: Plan, f: Field)
    requires Written(p, f)
    ensures Position(f) >= 0
  {
    hide Position, Proper, Writes, RemainingPart, HostMirrorPart, PutAll;
    WritesMean(p, BLANK);
    var w :| w in Writes(p) && w.field == f;
    var i :| 0 <= i < |Writes(p)| && Writes(p)[i] == w;
  }

  /** A field that is not written keeps its value, and the image does not depend on it. */
  lemma NotWritten(p: Plan, f: Field, v: Vmcs)
    requires !Written(p, f)
    ensures Get(Image(p, v), f) == Get(v, f)
  {
    hide Get, Image, Writes, Known, PutAll, Different;
    WritesDiffer(p);
    WritesGiveImage(p, v, Writes(p));
    AllWritten(v, Writes(p), f);
  }

  lemma ImageDecides(p: Plan, f: Field, v: Vmcs, u: Vmcs)
    requires Known(f) && f !in {HOST_RSP, VM_INSTRUCTION_ERROR, EXIT_REASON}
    ensures Get(Image(p, v), f) == Get(Image(p, u), f)
  {
    hide HostSelector, Wide, Wide32, Ar, FlatLimit, Limit16, TrBase, SysenterCs, PinWord, ProcWord, ExitWord,
      EntryWord;
  }

  /** Of the fields in use every one is written but HOST_RSP and the two read-only ones, and
      no other field is. */
  lemma FieldsLeft(p: Plan, f: Field)
    ensures Written(p, f) <==> Known(f) && f !in {HOST_RSP, VM_INSTRUCTION_ERROR, EXIT_REASON}
  {
    hide *;
    NoPlace(f);
    PlacedKnown(f);
    if Written(p, f) {
      WrittenPlaced(p, f);
    } else if Known(f) && f !in {HOST_RSP, VM_INSTRUCTION_ERROR, EXIT_REASON} {
      var v, u := Put(BLANK, f, ZERO), Put(BLANK, f, Word(1));
      NotWritten(p, f, v);
      NotWritten(p, f, u);
      ImageDecides(p, f, v, u);
      ReadAfterWrite(BLANK, f, ZERO, f);
      ReadAfterWrite(BLANK, f, Word(1), f);
      OneIsNotZero();
    }
  }

  lemma OneIsNotZero()
    ensures ZERO != Word(1)
  {
  }
}
