/** VMREAD and VMWRITE make a VMCS a map from fields to words: so what a series of
    writes to different fields leaves does not depend on their order. */
module VmcsLaws {
  import opened Words
  import opened CpuDefs
  import opened VmcsRegions

  /** The fields that vmm/cpu-defs.h defines and the driver or the processor uses. */
  predicate Known(f: Field) {
    match f.group
    case Guest16 => f.index < 8
    case Guest64 => f.index < 2
    case Guest32 => f.index < 22
    case GuestNatural => f.index < 20
    case Host16 => f.index < 7
    case Host32 => f.index < 1
    case HostNatural => f.index < 12
    case Control64 => f.index in {0, 1, 6, 8}
    case Control32 => f.index < 14
    case ControlNatural => f.index < 8
    case Data32 => f.index < 2
  }

  // One lemma a group: what reading index j gives after writing index i

  lemma Guest16Law(s: Guest16State, i: nat, x: Word, j: nat)
    ensures GetGuest16(PutGuest16(s, i, x), j) == if i == j && Known(Field(Guest16, i)) then x else GetGuest16(s, j)
  {
  }

  lemma Guest64Law(s: Guest64State, i: nat, x: Word, j: nat)
    ensures GetGuest64(PutGuest64(s, i, x), j) == if i == j && Known(Field(Guest64, i)) then x else GetGuest64(s, j)
  {
  }

  lemma Guest32Law(s: Guest32State, i: nat, x: Word, j: nat)
    ensures GetGuest32(PutGuest32(s, i, x), j) == if i == j && Known(Field(Guest32, i)) then x else GetGuest32(s, j)
  {
  }

  lemma GuestNaturalLaw(s: GuestNaturalState, i: nat, x: Word, j: nat)
    ensures GetGuestNatural(PutGuestNatural(s, i, x), j) == if i == j && Known(Field(GuestNatural,
      i)) then x else GetGuestNatural(s, j)
  {
  }

  lemma Host16Law(s: Host16State, i: nat, x: Word, j: nat)
    ensures GetHost16(PutHost16(s, i, x), j) == if i == j && Known(Field(Host16, i)) then x else GetHost16(s, j)
  {
  }

  lemma Host32Law(s: Host32State, i: nat, x: Word, j: nat)
    ensures GetHost32(PutHost32(s, i, x), j) == if i == j && Known(Field(Host32, i)) then x else GetHost32(s, j)
  {
  }

  lemma HostNaturalLaw(s: HostNaturalState, i: nat, x: Word, j: nat)
    ensures GetHostNatural(PutHostNatural(s, i, x), j) == if i == j && Known(Field(HostNatural,
      i)) then x else GetHostNatural(s, j)
  {
  }

  lemma Control64Law(s: Control64State, i: nat, x: Word, j: nat)
    ensures GetControl64(PutControl64(s, i, x), j) == if i == j && Known(Field(Control64,
      i)) then x else GetControl64(s, j)
  {
  }

  lemma Control32Law(s: Control32State, i: nat, x: Word, j: nat)
    ensures GetControl32(PutControl32(s, i, x), j) == if i == j && Known(Field(Control32,
      i)) then x else GetControl32(s, j)
  {
  }

  lemma ControlNaturalLaw(s: ControlNaturalState, i: nat, x: Word, j: nat)
    ensures GetControlNatural(PutControlNatural(s, i, x), j) == if i == j
      && Known(Field(ControlNatural, i)) then x else GetControlNatural(s, j)
  {
  }

  lemma Data32Law(s: Data32State, i: nat, x: Word, j: nat)
    ensures GetData32(PutData32(s, i, x), j) == if i == j && Known(Field(Data32, i)) then x else GetData32(s, j)
  {
  }

  /** Reading a field gives what was last written to it; every other field is untouched. */
  lemma ReadAfterWrite(v: Vmcs, f: Field, x: Word, g: Field)
    ensures Get(Put(v, f, x), g) == if f == g && Known(f) then x else Get(v, g)
  {
    hide Known, GetGuest16, PutGuest16, GetGuest64, PutGuest64, GetGuest32, PutGuest32, GetGuestNatural,
      PutGuestNatural, GetHost16, PutHost16, GetHost32, PutHost32, GetHostNatural, PutHostNatural, GetControl64,
      PutControl64, GetControl32, PutControl32, GetControlNatural, PutControlNatural, GetData32, PutData32;
    var i, j := f.index, g.index;
    match f.group {
      case Guest16 => Guest16Law(v.guest16, i, x, j);
      case Guest64 => Guest64Law(v.guest64, i, x, j);
      case Guest32 => Guest32Law(v.guest32, i, x, j);
      case GuestNatural => GuestNaturalLaw(v.guestNatural, i, x, j);
      case Host16 => Host16Law(v.host16, i, x, j);
      case Host32 => Host32Law(v.host32, i, x, j);
      case HostNatural => HostNaturalLaw(v.hostNatural, i, x, j);
      case Control64 => Control64Law(v.control64, i, x, j);
      case Control32 => Control32Law(v.control32, i, x, j);
      case ControlNatural => ControlNaturalLaw(v.controlNatural, i, x, j);
      case Data32 => Data32Law(v.data32, i, x, j);
    }
  }

  datatype Write = Write(field: Field, value: Word)

  function PutAll(v: Vmcs, writes: seq<Write>): Vmcs {
    if writes == [] then v
    else var last := writes[|writes| - 1]; Put(PutAll(v, writes[..|writes| - 1]), last.field, last.value)
  }

  ghost predicate Different(writes: seq<Write>) {
    forall i, j :: 0 <= i < j < |writes| ==> writes[i].field != writes[j].field
  }

  /** After writes to different fields each of them holds its value, and the rest
      of the VMCS what it held. */
  lemma {:induction false} AllWritten(v: Vmcs, writes: seq<Write>, g: Field)
    requires Different(writes)
    ensures forall w :: w in writes && w.field == g && Known(g) ==> Get(PutAll(v, writes), g) == w.value
    ensures (forall w :: w in writes ==> w.field != g) || !Known(g) ==> Get(PutAll(v, writes), g) == Get(v, g)
  {
    hide Get, Put, Known;
    if writes != [] {
      var before, last := writes[..|writes| - 1], writes[|writes| - 1];
      AllWritten(v, before, g);
      ReadAfterWrite(PutAll(v, before), last.field, last.value, g);
      assert writes == before + [last];
      assert forall w :: w in before ==> exists i :: 0 <= i < |before| && before[i] == w;
    }
  }

  /** The order of such writes does not matter. */
  lemma OrderOfWrites(v: Vmcs, a: seq<Write>, b: seq<Write>, g: Field)
    requires Different(a) && Different(b)
    requires forall w :: w in a <==> w in b
    ensures Get(PutAll(v, a), g) == Get(PutAll(v, b), g)
  {
    AllWritten(v, a, g);
    AllWritten(v, b, g);
    hide Get, Put, PutAll, Known, Different;
    if w :| w in a && w.field == g && Known(g) {
      assert w in b;
    }
  }

  lemma FieldOnce(a: seq<Write>, x: Write, y: Write)
    requires Different(a) && x in a && y in a && x.field == y.field
    ensures x == y
  {
  }

  lemma {:induction false} AtMostOnce(a: seq<Write>, x: Write)
    requires Different(a)
    ensures multiset(a)[x] <= 1
  {
    if a != [] {
      var n := |a| - 1;
      AtMostOnce(a[..n], x);
      assert a == a[..n] + [a[n]];
      if a[n] == x {
        assert x !in a[..n];
      }
    }
  }

  lemma TwiceCounted(b: seq<Write>, i: nat, j: nat)
    requires i < j < |b| && b[i] == b[j]
    ensures multiset(b)[b[i]] >= 2
  {
    assert b == b[..j] + b[j..];
    assert b[i] in b[..j] && b[j] in b[j..];
  }

  lemma SameWrites(a: seq<Write>, b: seq<Write>)
    requires multiset(a) == multiset(b)
    ensures forall w :: w in a <==> w in b
  {
    forall w ensures w in a <==> w in b {
      assert w in a <==> w in multiset(a);
      assert w in b <==> w in multiset(b);
    }
  }

  /** A permutation of writes to different fields is one too. */
  lemma DifferentPermuted(a: seq<Write>, b: seq<Write>)
    requires Different(a) && multiset(a) == multiset(b)
    ensures Different(b)
  {
    SameWrites(a, b);
    forall i, j | 0 <= i < j < |b| ensures b[i].field != b[j].field {
      assert b[i] in b && b[j] in b;
      if b[i].field == b[j].field {
        FieldOnce(a, b[i], b[j]);
        TwiceCounted(b, i, j);
        AtMostOnce(a, b[i]);
      }
    }
  }

  // Two VMCSs that read alike are equal: one lemma a group

  lemma Guest16Extensional(s: Guest16State, t: Guest16State)
    requires forall i: nat :: i < 8 ==> GetGuest16(s, i) == GetGuest16(t, i)
    ensures s == t
  {
    assert GetGuest16(s, 0) == GetGuest16(t, 0) && GetGuest16(s, 1) == GetGuest16(t, 1);
    assert GetGuest16(s, 2) == GetGuest16(t, 2) && GetGuest16(s, 3) == GetGuest16(t, 3);
    assert GetGuest16(s, 4) == GetGuest16(t, 4) && GetGuest16(s, 5) == GetGuest16(t, 5);
    assert GetGuest16(s, 6) == GetGuest16(t, 6) && GetGuest16(s, 7) == GetGuest16(t, 7);
  }

  lemma Guest64Extensional(s: Guest64State, t: Guest64State)
    requires forall i: nat :: i < 2 ==> GetGuest64(s, i) == GetGuest64(t, i)
    ensures s == t
  {
    assert GetGuest64(s, 0) == GetGuest64(t, 0) && GetGuest64(s, 1) == GetGuest64(t, 1);
  }

  lemma Guest32Extensional(s: Guest32State, t: Guest32State)
    requires forall i: nat :: i < 22 ==> GetGuest32(s, i) == GetGuest32(t, i)
    ensures s == t
  {
    assert GetGuest32(s, 0) == GetGuest32(t, 0) && GetGuest32(s, 1) == GetGuest32(t, 1);
    assert GetGuest32(s, 2) == GetGuest32(t, 2) && GetGuest32(s, 3) == GetGuest32(t, 3);
    assert GetGuest32(s, 4) == GetGuest32(t, 4) && GetGuest32(s, 5) == GetGuest32(t, 5);
    assert GetGuest32(s, 6) == GetGuest32(t, 6) && GetGuest32(s, 7) == GetGuest32(t, 7);
    assert GetGuest32(s, 8) == GetGuest32(t, 8) && GetGuest32(s, 9) == GetGuest32(t, 9);
    assert GetGuest32(s, 10) == GetGuest32(t, 10) && GetGuest32(s, 11) == GetGuest32(t, 11);
    assert GetGuest32(s, 12) == GetGuest32(t, 12) && GetGuest32(s, 13) == GetGuest32(t, 13);
    assert GetGuest32(s, 14) == GetGuest32(t, 14) && GetGuest32(s, 15) == GetGuest32(t, 15);
    assert GetGuest32(s, 16) == GetGuest32(t, 16) && GetGuest32(s, 17) == GetGuest32(t, 17);
    assert GetGuest32(s, 18) == GetGuest32(t, 18) && GetGuest32(s, 19) == GetGuest32(t, 19);
    assert GetGuest32(s, 20) == GetGuest32(t, 20) && GetGuest32(s, 21) == GetGuest32(t, 21);
  }

  lemma GuestNaturalExtensional(s: GuestNaturalState, t: GuestNaturalState)
    requires forall i: nat :: i < 20 ==> GetGuestNatural(s, i) == GetGuestNatural(t, i)
    ensures s == t
  {
    assert GetGuestNatural(s, 0) == GetGuestNatural(t, 0) && GetGuestNatural(s, 1) == GetGuestNatural(t, 1);
    assert GetGuestNatural(s, 2) == GetGuestNatural(t, 2) && GetGuestNatural(s, 3) == GetGuestNatural(t, 3);
    assert GetGuestNatural(s, 4) == GetGuestNatural(t, 4) && GetGuestNatural(s, 5) == GetGuestNatural(t, 5);
    assert GetGuestNatural(s, 6) == GetGuestNatural(t, 6) && GetGuestNatural(s, 7) == GetGuestNatural(t, 7);
    assert GetGuestNatural(s, 8) == GetGuestNatural(t, 8) && GetGuestNatural(s, 9) == GetGuestNatural(t, 9);
    assert GetGuestNatural(s, 10) == GetGuestNatural(t, 10) && GetGuestNatural(s, 11) == GetGuestNatural(t, 11);
    assert GetGuestNatural(s, 12) == GetGuestNatural(t, 12) && GetGuestNatural(s, 13) == GetGuestNatural(t, 13);
    assert GetGuestNatural(s, 14) == GetGuestNatural(t, 14) && GetGuestNatural(s, 15) == GetGuestNatural(t, 15);
    assert GetGuestNatural(s, 16) == GetGuestNatural(t, 16) && GetGuestNatural(s, 17) == GetGuestNatural(t, 17);
    assert GetGuestNatural(s, 18) == GetGuestNatural(t, 18) && GetGuestNatural(s, 19) == GetGuestNatural(t, 19);
  }

  lemma Host16Extensional(s: Host16State, t: Host16State)
    requires forall i: nat :: i < 7 ==> GetHost16(s, i) == GetHost16(t, i)
    ensures s == t
  {
    assert GetHost16(s, 0) == GetHost16(t, 0) && GetHost16(s, 1) == GetHost16(t, 1);
    assert GetHost16(s, 2) == GetHost16(t, 2) && GetHost16(s, 3) == GetHost16(t, 3);
    assert GetHost16(s, 4) == GetHost16(t, 4) && GetHost16(s, 5) == GetHost16(t, 5);
    assert GetHost16(s, 6) == GetHost16(t, 6);
  }

  lemma Host32Extensional(s: Host32State, t: Host32State)
    requires forall i: nat :: i < 1 ==> GetHost32(s, i) == GetHost32(t, i)
    ensures s == t
  {
    assert GetHost32(s, 0) == GetHost32(t, 0);
  }

  lemma HostNaturalExtensional(s: HostNaturalState, t: HostNaturalState)
    requires forall i: nat :: i < 12 ==> GetHostNatural(s, i) == GetHostNatural(t, i)
    ensures s == t
  {
    assert GetHostNatural(s, 0) == GetHostNatural(t, 0) && GetHostNatural(s, 1) == GetHostNatural(t, 1);
    assert GetHostNatural(s, 2) == GetHostNatural(t, 2) && GetHostNatural(s, 3) == GetHostNatural(t, 3);
    assert GetHostNatural(s, 4) == GetHostNatural(t, 4) && GetHostNatural(s, 5) == GetHostNatural(t, 5);
    assert GetHostNatural(s, 6) == GetHostNatural(t, 6) && GetHostNatural(s, 7) == GetHostNatural(t, 7);
    assert GetHostNatural(s, 8) == GetHostNatural(t, 8) && GetHostNatural(s, 9) == GetHostNatural(t, 9);
    assert GetHostNatural(s, 10) == GetHostNatural(t, 10) && GetHostNatural(s, 11) == GetHostNatural(t, 11);
  }

  lemma Control64Extensional(s: Control64State, t: Control64State)
    requires forall i: nat :: i in {0, 1, 6, 8} ==> GetControl64(s, i) == GetControl64(t, i)
    ensures s == t
  {
    assert GetControl64(s, 0) == GetControl64(t, 0);
    assert GetControl64(s, 1) == GetControl64(t, 1);
    assert GetControl64(s, 6) == GetControl64(t, 6);
    assert GetControl64(s, 8) == GetControl64(t, 8);
  }

  lemma Control32Extensional(s: Control32State, t: Control32State)
    requires forall i: nat :: i < 14 ==> GetControl32(s, i) == GetControl32(t, i)
    ensures s == t
  {
    assert GetControl32(s, 0) == GetControl32(t, 0) && GetControl32(s, 1) == GetControl32(t, 1);
    assert GetControl32(s, 2) == GetControl32(t, 2) && GetControl32(s, 3) == GetControl32(t, 3);
    assert GetControl32(s, 4) == GetControl32(t, 4) && GetControl32(s, 5) == GetControl32(t, 5);
    assert GetControl32(s, 6) == GetControl32(t, 6) && GetControl32(s, 7) == GetControl32(t, 7);
    assert GetControl32(s, 8) == GetControl32(t, 8) && GetControl32(s, 9) == GetControl32(t, 9);
    assert GetControl32(s, 10) == GetControl32(t, 10) && GetControl32(s, 11) == GetControl32(t, 11);
    assert GetControl32(s, 12) == GetControl32(t, 12) && GetControl32(s, 13) == GetControl32(t, 13);
  }

  lemma ControlNaturalExtensional(s: ControlNaturalState, t: ControlNaturalState)
    requires forall i: nat :: i < 8 ==> GetControlNatural(s, i) == GetControlNatural(t, i)
    ensures s == t
  {
    assert GetControlNatural(s, 0) == GetControlNatural(t, 0) && GetControlNatural(s, 1) == GetControlNatural(t, 1);
    assert GetControlNatural(s, 2) == GetControlNatural(t, 2) && GetControlNatural(s, 3) == GetControlNatural(t, 3);
    assert GetControlNatural(s, 4) == GetControlNatural(t, 4) && GetControlNatural(s, 5) == GetControlNatural(t, 5);
    assert GetControlNatural(s, 6) == GetControlNatural(t, 6) && GetControlNatural(s, 7) == GetControlNatural(t, 7);
  }

  lemma Data32Extensional(s: Data32State, t: Data32State)
    requires forall i: nat :: i < 2 ==> GetData32(s, i) == GetData32(t, i)
    ensures s == t
  {
    assert GetData32(s, 0) == GetData32(t, 0) && GetData32(s, 1) == GetData32(t, 1);
  }

  ghost predicate ReadAlike(v: Vmcs, w: Vmcs) { forall g :: Known(g) ==> Get(v, g) == Get(w, g) }

  lemma Guest16Alike(v: Vmcs, w: Vmcs)
    requires ReadAlike(v, w)
    ensures v.guest16 == w.guest16
  {
    forall i: nat | i < 8 ensures GetGuest16(v.guest16, i) == GetGuest16(w.guest16, i) {
      assert Known(Field(Guest16, i)) && Get(v, Field(Guest16, i)) == Get(w, Field(Guest16, i));
    }
    hide *;
    Guest16Extensional(v.guest16, w.guest16);
  }

  lemma Guest64Alike(v: Vmcs, w: Vmcs)
    requires ReadAlike(v, w)
    ensures v.guest64 == w.guest64
  {
    forall i: nat | i < 2 ensures GetGuest64(v.guest64, i) == GetGuest64(w.guest64, i) {
      assert Known(Field(Guest64, i)) && Get(v, Field(Guest64, i)) == Get(w, Field(Guest64, i));
    }
    hide *;
    Guest64Extensional(v.guest64, w.guest64);
  }

  lemma Guest32Alike(v: Vmcs, w: Vmcs)
    requires ReadAlike(v, w)
    ensures v.guest32 == w.guest32
  {
    forall i: nat | i < 22 ensures GetGuest32(v.guest32, i) == GetGuest32(w.guest32, i) {
      assert Known(Field(Guest32, i)) && Get(v, Field(Guest32, i)) == Get(w, Field(Guest32, i));
    }
    hide *;
    Guest32Extensional(v.guest32, w.guest32);
  }

  lemma GuestNaturalAlike(v: Vmcs, w: Vmcs)
    requires ReadAlike(v, w)
    ensures v.guestNatural == w.guestNatural
  {
    forall i: nat | i < 20 ensures GetGuestNatural(v.guestNatural, i) == GetGuestNatural(w.guestNatural, i) {
      assert Known(Field(GuestNatural, i)) && Get(v, Field(GuestNatural, i)) == Get(w, Field(GuestNatural, i));
    }
    hide *;
    GuestNaturalExtensional(v.guestNatural, w.guestNatural);
  }

  lemma Host16Alike(v: Vmcs, w: Vmcs)
    requires ReadAlike(v, w)
    ensures v.host16 == w.host16
  {
    forall i: nat | i < 7 ensures GetHost16(v.host16, i) == GetHost16(w.host16, i) {
      assert Known(Field(Host16, i)) && Get(v, Field(Host16, i)) == Get(w, Field(Host16, i));
    }
    hide *;
    Host16Extensional(v.host16, w.host16);
  }

  lemma Host32Alike(v: Vmcs, w: Vmcs)
    requires ReadAlike(v, w)
    ensures v.host32 == w.host32
  {
    forall i: nat | i < 1 ensures GetHost32(v.host32, i) == GetHost32(w.host32, i) {
      assert Known(Field(Host32, i)) && Get(v, Field(Host32, i)) == Get(w, Field(Host32, i));
    }
    hide *;
    Host32Extensional(v.host32, w.host32);
  }

  lemma HostNaturalAlike(v: Vmcs, w: Vmcs)
    requires ReadAlike(v, w)
    ensures v.hostNatural == w.hostNatural
  {
    forall i: nat | i < 12 ensures GetHostNatural(v.hostNatural, i) == GetHostNatural(w.hostNatural, i) {
      assert Known(Field(HostNatural, i)) && Get(v, Field(HostNatural, i)) == Get(w, Field(HostNatural, i));
    }
    hide *;
    HostNaturalExtensional(v.hostNatural, w.hostNatural);
  }

  lemma Control64Alike(v: Vmcs, w: Vmcs)
    requires ReadAlike(v, w)
    ensures v.control64 == w.control64
  {
    forall i: nat | i in {0, 1, 6, 8} ensures GetControl64(v.control64, i) == GetControl64(w.control64, i) {
      assert Known(Field(Control64, i)) && Get(v, Field(Control64, i)) == Get(w, Field(Control64, i));
    }
    hide *;
    Control64Extensional(v.control64, w.control64);
  }

  lemma Control32Alike(v: Vmcs, w: Vmcs)
    requires ReadAlike(v, w)
    ensures v.control32 == w.control32
  {
    forall i: nat | i < 14 ensures GetControl32(v.control32, i) == GetControl32(w.control32, i) {
      assert Known(Field(Control32, i)) && Get(v, Field(Control32, i)) == Get(w, Field(Control32, i));
    }
    hide *;
    Control32Extensional(v.control32, w.control32);
  }

  lemma ControlNaturalAlike(v: Vmcs, w: Vmcs)
    requires ReadAlike(v, w)
    ensures v.controlNatural == w.controlNatural
  {
    forall i: nat | i < 8 ensures GetControlNatural(v.controlNatural, i) == GetControlNatural(w.controlNatural, i) {
      assert Known(Field(ControlNatural, i)) && Get(v, Field(ControlNatural, i)) == Get(w, Field(ControlNatural, i));
    }
    hide *;
    ControlNaturalExtensional(v.controlNatural, w.controlNatural);
  }

  lemma Data32Alike(v: Vmcs, w: Vmcs)
    requires ReadAlike(v, w)
    ensures v.data32 == w.data32
  {
    forall i: nat | i < 2 ensures GetData32(v.data32, i) == GetData32(w.data32, i) {
      assert Known(Field(Data32, i)) && Get(v, Field(Data32, i)) == Get(w, Field(Data32, i));
    }
    hide *;
    Data32Extensional(v.data32, w.data32);
  }

  lemma Extensional(v: Vmcs, w: Vmcs)
    requires ReadAlike(v, w)
    ensures v == w
  {
    hide *;
    Guest16Alike(v, w);
    Guest64Alike(v, w);
    Guest32Alike(v, w);
    GuestNaturalAlike(v, w);
    Host16Alike(v, w);
    Host32Alike(v, w);
    HostNaturalAlike(v, w);
    Control64Alike(v, w);
    Control32Alike(v, w);
    ControlNaturalAlike(v, w);
    Data32Alike(v, w);
  }

  /** Writes to different fields leave the same VMCS in whatever order they are made. */
  lemma AnyOrder(v: Vmcs, a: seq<Write>, b: seq<Write>)
    requires Different(a) && multiset(a) == multiset(b)
    ensures PutAll(v, a) == PutAll(v, b)
  {
    DifferentPermuted(a, b);
    SameWrites(a, b);
    forall g | Known(g) ensures Get(PutAll(v, a), g) == Get(PutAll(v, b), g) {
      OrderOfWrites(v, a, b, g);
    }
    hide Get, Put, PutAll, Known, Different;
    Extensional(PutAll(v, a), PutAll(v, b));
  }
}
