/** The arithmetic of the measurement (vmm/vmx.c:530-536). */
module Measurement {
  import opened Processor

  const TSC_RANGE := 0x1_0000_0000_0000_0000

  /** __BIT(n). */
  function Bit(n: nat): (b: nat)
    ensures b >= 1
  {
    if n == 0 then 1 else 2 * Bit(n - 1)
  }

  /** RDTSC reads the counter modulo its 64 bits. */
  function ReadTsc(m: Machine): nat { m.tsc % TSC_RANGE }

  /** Time passes. */
  function Spend(m: Machine, cycles: nat): Machine { m.(tsc := m.tsc + cycles) }

  /** Subtraction of u64. */
  function Subtract(a: nat, b: nat): nat
    requires a < TSC_RANGE && b < TSC_RANGE
  {
    (a - b) % TSC_RANGE
  }

  /** Cycles spent in the entries numbered from `first` up to `last`. */
  function CycleSum(env: Env, first: nat, last: nat): nat
    requires first <= last
  {
    if first == last then 0 else CycleSum(env, first, last - 1) + env.cycles(last - 1)
  }

  /** What really passes between the two reads of round n, whose first entry has number `first`. */
  function Elapsed(env: Env, first: nat, n: nat): nat {
    CycleSum(env, first, first + Bit(n)) + env.overhead(n)
  }

  /** The division of u64. */
  function Divide(x: nat, d: nat): nat
    requires d >= 1
  {
    x / d
  }

  /** The value stored for round n. */
  function Latency(env: Env, first: nat, n: nat): nat { Divide(Elapsed(env, first, n) % TSC_RANGE, Bit(n)) }

  /** The counter may wrap between the reads: the difference is right modulo its range. */
  lemma WrapAround(start: nat, elapsed: nat)
    ensures Subtract((start + elapsed) % 0x1_0000_0000_0000_0000, start % 0x1_0000_0000_0000_0000)
         == elapsed % 0x1_0000_0000_0000_0000
  {
    var a, b := (start + elapsed) / TSC_RANGE, start / TSC_RANGE;
    var c := elapsed / TSC_RANGE;
    var d := (start + elapsed) % TSC_RANGE - start % TSC_RANGE;
    assert d == elapsed - (a - b) * TSC_RANGE;
    assert d == elapsed % TSC_RANGE + (c - (a - b)) * TSC_RANGE;
  }

  /** What line 535 stores for a round that took `e` cycles from `start`. */
  lemma StoredLatency(env: Env, first: nat, n: nat, start: nat, end: nat)
    requires end == start + Elapsed(env, first, n)
    ensures Divide(Subtract(end % TSC_RANGE, start % TSC_RANGE), Bit(n)) == Latency(env, first, n)
  {
    WrapAround(start, Elapsed(env, first, n));
  }

  lemma NoCycles(env: Env, first: nat)
    ensures CycleSum(env, first, first) == 0
  {
  }

  lemma MoreCycles(env: Env, first: nat, count: nat)
    ensures CycleSum(env, first, first + (count + 1)) == CycleSum(env, first, first + count) + env.cycles(first + count)
  {
  }

  lemma TscRead(m: Machine)
    ensures ReadTsc(m) == m.tsc % TSC_RANGE && ReadTsc(m) < TSC_RANGE
  {
  }

  lemma TimeOfRound(env: Env, first: nat, n: nat)
    ensures Elapsed(env, first, n) == CycleSum(env, first, first + Bit(n)) + env.overhead(n)
  {
  }

  lemma BitDoubles(n: nat)
    ensures Bit(n + 1) == Bit(n) + Bit(n)
  {
  }

  /** The loop counter, an int, stays below 2^31. */
  lemma BitBound(n: nat)
    requires n <= 30
    ensures Bit(n) <= 0x4000_0000
  {
    BitMonotone(n, 30);
    assert Bit(10) == 0x400;
    BitSum(10, 10);
    BitSum(20, 10);
  }

  lemma {:induction false} BitSum(n: nat, k: nat)
    ensures Bit(n + k) == Bit(n) * Bit(k)
  {
    if k > 0 { BitSum(n, k - 1); }
  }

  lemma {:induction false} BitMonotone(n: nat, k: nat)
    requires n <= k
    ensures Bit(n) <= Bit(k)
  {
    if n < k { BitMonotone(n, k - 1); }
  }

  lemma OneMore(x: nat, n: nat)
    ensures x * (n + 1) == x * n + x
  {
  }

  lemma {:induction false} CyclesBetween(env: Env, first: nat, last: nat, lo: nat, hi: nat)
    requires first <= last
    requires forall k: nat :: first <= k < last ==> lo <= env.cycles(k) <= hi
    ensures lo * (last - first) <= CycleSum(env, first, last) <= hi * (last - first)
  {
    if first < last {
      CyclesBetween(env, first, last - 1, lo, hi);
      OneMore(lo, last - 1 - first);
      OneMore(hi, last - 1 - first);
    }
  }

  lemma DivideBounds(e: nat, lo: nat, hi: nat, c: nat, d: nat)
    requires d >= 1 && lo * d <= e <= hi * d + c
    ensures lo <= Divide(e, d) <= hi + Divide(c, d)
  {
    assert e / d <= (hi * d + c) / d by { Monotone(e, hi * d + c, d); }
    assert (hi * d + c) / d == hi + c / d by { AddMultiple(hi, c, d); }
    assert lo * d / d <= e / d by { Monotone(lo * d, e, d); }
    assert (lo * d + 0) / d == lo + 0 / d by { AddMultiple(lo, 0, d); }
  }

  lemma Monotone(a: nat, b: nat, d: nat)
    requires d >= 1 && a <= b
    ensures a / d <= b / d
  {
    if a / d > b / d {
      var qa, qb := a / d, b / d;
      assert qa * d >= (qb + 1) * d by { TimesMonotone(qb + 1, qa, d); }
    }
  }

  lemma TimesMonotone(x: nat, y: nat, d: nat)
    requires x <= y
    ensures x * d <= y * d
  {
  }

  lemma AddMultiple(q: nat, c: nat, d: nat)
    requires d >= 1
    ensures (q * d + c) / d == q + c / d
  {
    var r := c - c / d * d;
    assert q * d + c == (q + c / d) * d + r;
    Quotient(q * d + c, q + c / d, r, d);
  }

  lemma Quotient(x: nat, q: nat, r: nat, d: nat)
    requires d >= 1 && r < d && x == q * d + r
    ensures x / d == q
  {
    var q' := x / d;
    if q' < q {
      TimesMonotone(q' + 1, q, d);
    } else if q' > q {
      TimesMonotone(q + 1, q', d);
    }
  }

  lemma SmallQuotient(c: nat, d: nat)
    requires d >= 1
    ensures c < d ==> Divide(c, d) == 0
  {
    if c < d {
      Quotient(c, 0, c, d);
    }
  }

  /** If every resume of round n takes between lo and hi cycles and the rest of the
      window at most c, the value stored for the round is at least lo and exceeds
      hi by at most c / 2^n, wherever the counter wraps; so once 2^n exceeds c it
      lies between lo and hi. */
  lemma LatencyBounds(env: Env, first: nat, n: nat, lo: nat, hi: nat, c: nat)
    requires forall k: nat :: first <= k < first + Bit(n) ==> lo <= env.cycles(k) <= hi
    requires env.overhead(n) <= c
    requires Elapsed(env, first, n) < 0x1_0000_0000_0000_0000
    ensures lo <= Latency(env, first, n) <= hi + Divide(c, Bit(n))
    ensures c < Bit(n) ==> lo <= Latency(env, first, n) <= hi
  {
    hide *;
    var d, e := Bit(n), Elapsed(env, first, n);
    CyclesBetween(env, first, first + d, lo, hi);
    TimeOfRound(env, first, n);
    assert first + d - first == d;
    ShortRound(env, first, n);
    DivideBounds(e, lo, hi, c, d);
    SmallQuotient(c, d);
  }

  lemma ShortRound(env: Env, first: nat, n: nat)
    requires Elapsed(env, first, n) < 0x1_0000_0000_0000_0000
    ensures Latency(env, first, n) == Divide(Elapsed(env, first, n), Bit(n))
  {
    hide Bit, Divide, Elapsed;
  }

  /** The stored value is the true quotient exactly when the round is shorter than
      the range of the counter. */
  lemma LatencyExact(env: Env, first: nat, n: nat)
    requires Bit(n) <= 0x1_0000_0000_0000_0000
    ensures Latency(env, first, n) == Elapsed(env, first, n) / Bit(n)
      <==> Elapsed(env, first, n) < 0x1_0000_0000_0000_0000
  {
    var e, d := Elapsed(env, first, n), Bit(n);
    if e >= TSC_RANGE {
      assert e % TSC_RANGE <= e - TSC_RANGE;
      Monotone(e % TSC_RANGE, e - d, d);
      AddMultiple(1, e - d, d);
    }
  }
}
