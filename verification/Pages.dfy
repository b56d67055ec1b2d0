/** The ledger of pages (vmm/vmx.c:46-67, linux/api.c). */
module Pages {
  import opened Words
  import opened VmcsRegions
  import opened Processor

  /** What up to n requests in a row give, if the first failure ends them. */
  function Request(env: Env, m: Machine, n: nat): (Machine, seq<Address>)
    decreases n
  {
    if n == 0 then (m, [])
    else
      var (m1, page) := AllocatePage(env, m);
      if page.None? then (m1, [])
      else
        var (m2, rest) := Request(env, m1, n - 1);
        (m2, [page.value] + rest)
  }

  /** The requests still to come, after some that were granted. */
  predicate StillToCome(env: Env, m: Machine, n: nat, granted: seq<Address>, now: Machine, k: nat) {
    Request(env, m, n) == (Request(env, now, k).0, granted + Request(env, now, k).1)
  }

  lemma NoneGranted(env: Env, m: Machine, n: nat)
    ensures StillToCome(env, m, n, [], m, n)
  {
    assert [] + Request(env, m, n).1 == Request(env, m, n).1;
  }

  lemma AllGranted(env: Env, m: Machine, n: nat, granted: seq<Address>, now: Machine)
    requires StillToCome(env, m, n, granted, now, 0)
    ensures Request(env, m, n) == (now, granted)
  {
    assert granted + [] == granted;
  }

  lemma NextRequest(env: Env, m: Machine, n: nat, granted: seq<Address>, now: Machine, k: nat)
    requires k > 0 && StillToCome(env, m, n, granted, now, k)
    ensures var page := AllocatePage(env, now).1;
      if page.None? then Request(env, m, n) == (AllocatePage(env, now).0, granted)
      else StillToCome(env, m, n, granted + [page.value], AllocatePage(env, now).0, k - 1)
  {
    hide AllocatePage;
    var (next, page) := AllocatePage(env, now);
    if page.Some? {
      var rest := Request(env, next, k - 1).1;
      assert granted + ([page.value] + rest) == (granted + [page.value]) + rest;
    } else {
      assert granted + [] == granted;
    }
  }

  function FreeAll(m: Machine, pages: seq<Address>): Machine
    decreases |pages|
  {
    if pages == [] then m else FreeAll(FreePage(m, pages[0]), pages[1..])
  }

  function SetOf(pages: seq<Address>): set<Address> { set p | p in pages }

  ghost predicate Distinct(pages: seq<Address>) {
    forall i, j :: 0 <= i < j < |pages| ==> pages[i] != pages[j]
  }

  /** Only kernel bookkeeping and the contents of the new pages differ. */
  ghost predicate Grown(m: Machine, a: Machine, pages: seq<Address>) {
    && a == m.(kernel := a.kernel, revision := a.revision, vmx := m.vmx.(store := a.vmx.store))
    && a.kernel.preemptDepth == m.kernel.preemptDepth
    && a.kernel.pages == m.kernel.pages + SetOf(pages)
    && m.kernel.pages !! SetOf(pages)
    && Distinct(pages)
    && (forall p :: p in pages ==> p in a.vmx.store && a.vmx.store[p] == VmcsRegion(false, BLANK))
    && (forall p :: p !in pages ==> (p in a.vmx.store <==> p in m.vmx.store))
    && (forall p :: p !in pages && p in m.vmx.store ==> a.vmx.store[p] == m.vmx.store[p])
  }

  /** Pages handed out by a run of requests are new, distinct and blank, and
      nothing but the ledger and those pages changes. */
  lemma {:induction false} RequestGrows(env: Env, m: Machine, n: nat)
    ensures var (a, pages) := Request(env, m, n); |pages| <= n && Grown(m, a, pages)
    decreases n
  {
    hide AllocatePage, Grown;
    AllocateGrows(env, m);
    if n > 0 {
      var (m1, page) := AllocatePage(env, m);
      if page.Some? {
        RequestGrows(env, m1, n - 1);
        GrownTrans(m, m1, Request(env, m1, n - 1).0, page.value, Request(env, m1, n - 1).1);
      }
    }
  }

  lemma AllocateGrows(env: Env, m: Machine)
    ensures Grown(m, m, [])
    ensures var (a, page) := AllocatePage(env, m); Grown(m, a, if page.Some? then [page.value] else [])
  {
    hide BLANK;
  }

  lemma GrownTrans(a: Machine, b: Machine, c: Machine, p: Address, rest: seq<Address>)
    requires Grown(a, b, [p]) && Grown(b, c, rest)
    ensures Grown(a, c, [p] + rest)
  {
    hide BLANK;
    assert p in [p];
    assert SetOf([p] + rest) == {p} + SetOf(rest) && SetOf([p]) == {p};
    assert forall q :: q in [p] + rest <==> q == p || q in rest;
  }

  /** Freeing distinct pages that are held and not in use by the processor takes
      exactly them off the ledger and is noticed by no monitor. */
  lemma {:induction false} FreeAllClean(m: Machine, pages: seq<Address>)
    requires Distinct(pages) && SetOf(pages) <= m.kernel.pages
    requires SetOf(pages) !! m.vmx.active
    requires m.vmx.on ==> m.vmx.region !in pages
    ensures FreeAll(m, pages) == m.(kernel := m.kernel.(pages := m.kernel.pages - SetOf(pages)))
    decreases |pages|
  {
    if pages == [] {
      assert m.kernel.pages - SetOf(pages) == m.kernel.pages;
    } else {
      var p, rest := pages[0], pages[1..];
      assert SetOf(pages) == {p} + SetOf(rest);
      assert forall j :: 0 <= j < |rest| ==> rest[j] == pages[j + 1] && rest[j] != p;
      assert FreePage(m, p) == m.(kernel := m.kernel.(pages := m.kernel.pages - {p}));
      FreeAllClean(FreePage(m, p), rest);
      assert m.kernel.pages - {p} - SetOf(rest) == m.kernel.pages - SetOf(pages);
    }
  }

  /** The five page fields of vm_monitor_t. */
  datatype Slot = VmxonRegion | VmcsPage | IoBitmapA | IoBitmapB | MsrBitmap

  /** allocate_memory fills the fields in this order. */
  const ALLOCATED := [VmxonRegion, VmcsPage, IoBitmapA, IoBitmapB, MsrBitmap]

  /** The field that free_memory frees when its counter stands at `left`. */
  function SlotAt(left: int): Slot {
    match left
    case 5 => MsrBitmap
    case 4 => IoBitmapB
    case 3 => IoBitmapA
    case 2 => VmxonRegion
    case _ => VmcsPage
  }

  /** The fields free_memory(cnt) frees, in order. */
  function Freed(cnt: int): seq<Slot> {
    if 1 <= cnt <= 5 then [SlotAt(cnt)] + Freed(cnt - 1) else []
  }

  function Position(s: Slot): (i: nat)
    ensures i < 5 && ALLOCATED[i] == s
  {
    match s
    case VmxonRegion => 0
    case VmcsPage => 1
    case IoBitmapA => 2
    case IoBitmapB => 3
    case MsrBitmap => 4
  }

  /** The addresses in some of the fields, when `at` lists all five. */
  function AddressesIn(at: seq<Address>, slots: seq<Slot>): seq<Address>
    requires |at| == 5
  {
    seq(|slots|, i requires 0 <= i < |slots| => at[Position(slots[i])])
  }

  lemma NextFreed(m: Machine, at: seq<Address>, left: int)
    requires |at| == 5 && 1 <= left <= 5
    ensures Freed(left) == [SlotAt(left)] + Freed(left - 1)
    ensures FreeAll(m, AddressesIn(at, Freed(left)))
         == FreeAll(FreePage(m, at[Position(SlotAt(left))]), AddressesIn(at, Freed(left - 1)))
  {
    hide FreePage, Position;
    assert Freed(left) == [SlotAt(left)] + Freed(left - 1);
    hide SlotAt, Freed;
    var p, rest := at[Position(SlotAt(left))], AddressesIn(at, Freed(left - 1));
    assert AddressesIn(at, Freed(left)) == [p] + rest;
    hide AddressesIn;
    assert ([p] + rest)[1..] == rest;
  }

  lemma NothingFreed(m: Machine, at: seq<Address>, left: int)
    requires |at| == 5 && !(1 <= left <= 5)
    ensures Freed(left) == [] && FreeAll(m, AddressesIn(at, Freed(left))) == m
  {
  }

  /** The fields of Freed(cnt), one by one. */
  lemma FreedSlots(cnt: int)
    ensures MsrBitmap in Freed(cnt) <==> cnt == 5
    ensures IoBitmapB in Freed(cnt) <==> 4 <= cnt <= 5
    ensures IoBitmapA in Freed(cnt) <==> 3 <= cnt <= 5
    ensures VmxonRegion in Freed(cnt) <==> 2 <= cnt <= 5
    ensures VmcsPage in Freed(cnt) <==> 1 <= cnt <= 5
  {
    assert Freed(0) == [] && Freed(1) == [VmcsPage];
    assert Freed(2) == [VmxonRegion] + Freed(1);
    assert Freed(3) == [IoBitmapA] + Freed(2);
    assert Freed(4) == [IoBitmapB] + Freed(3);
    assert Freed(5) == [MsrBitmap] + Freed(4);
  }

  predicate SameSlots(a: seq<Slot>, b: seq<Slot>) { forall s: Slot :: s in a <==> s in b }

  /** free_memory(cnt) frees what cnt successful allocations filled, for every
      cnt but 1: after one allocation it would free the wrong field. */
  lemma FreeUndoesAllocation(cnt: nat)
    requires cnt <= 5
    ensures |Freed(cnt)| == cnt
    ensures SameSlots(Freed(cnt), ALLOCATED[..cnt]) <==> cnt != 1
  {
    if cnt == 1 {
      assert ALLOCATED[..1] == [VmxonRegion] && VmxonRegion !in Freed(1);
    } else if cnt >= 2 {
      FreedOf(cnt - 2);
    }
  }

  lemma {:induction false} FreedOf(more: nat)
    requires more <= 3
    ensures |Freed(more + 2)| == more + 2
    ensures SameSlots(Freed(more + 2), ALLOCATED[..more + 2])
  {
    if more == 0 {
      assert Freed(2) == [VmxonRegion, VmcsPage] == ALLOCATED[..2];
    } else {
      FreedOf(more - 1);
      assert Freed(more + 2) == [ALLOCATED[more + 1]] + Freed(more + 1);
      assert ALLOCATED[..more + 2] == ALLOCATED[..more + 1] + [ALLOCATED[more + 1]];
    }
  }

  /** free_memory(5) frees each of the five pages once. */
  lemma FreedAll(at: seq<Address>)
    requires |at| == 5 && Distinct(at)
    ensures var freed := AddressesIn(at, Freed(5)); Distinct(freed) && SetOf(freed) == SetOf(at)
  {
    FreedFive();
    hide Freed;
    var freed := AddressesIn(at, Freed(5));
    assert forall i :: 0 <= i < 5 ==> freed[i] == at[[4, 3, 2, 0, 1][i]];
    assert at[0] == freed[3] && at[1] == freed[4] && at[2] == freed[2] && at[3] == freed[1] && at[4] == freed[0];
  }

  lemma FreedFive()
    ensures Freed(5) == [MsrBitmap, IoBitmapB, IoBitmapA, VmxonRegion, VmcsPage]
  {
  }
}
