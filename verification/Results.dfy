/** process-data.py, lines 60 to 91: one latency for each microarchitecture out of
    many result files. */
module Results {
  import opened Words

  /** sys.maxint of a 64-bit Python 2. */
  const MAXINT := 0x7fff_ffff_ffff_ffff

  /** A line of a result file after the first: an "IA32_" line, a line whose second
      part is an integer, or any other, which raises an exception. */
  datatype Line = Msr | Sample(latency: int) | Malformed

  datatype DataFile = DataFile(cpu: string, lines: seq<Line>)

  datatype Reading = Reading(avg: real, lmin: int)

  datatype Entry = Entry(uarch: string, reading: Reading)

  datatype Failure = BadLine | NoSamples | ZeroAverage | UnknownArchitecture

  datatype Result<+T> = Ok(value: T) | Err(failure: Failure)

  // --------------------------------------------------------------- one file

  function Samples(lines: seq<Line>): seq<int> {
    if lines == [] then []
    else Samples(lines[..|lines| - 1]) + (match lines[|lines| - 1] case Sample(x) => [x] case _ => [])
  }

  function Sum(xs: seq<int>): int {
    if xs == [] then 0 else Sum(xs[..|xs| - 1]) + xs[|xs| - 1]
  }

  /** `least` is what a search for the minimum that starts from MAXINT ends with. */
  predicate LeastFromMax(xs: seq<int>, least: int) {
    && least <= MAXINT && (forall x :: x in xs ==> least <= x)
    && (least in xs || least == MAXINT)
  }

  /** It is the minimum exactly when some sample does not exceed MAXINT. */
  lemma LeastIsMinimum(xs: seq<int>, least: int)
    requires LeastFromMax(xs, least)
    ensures least in xs <==> exists x :: x in xs && x <= 9223372036854775807
  {
  }

  /** What a file comes to, said of its lines at large. */
  ghost predicate Summarises(lines: seq<Line>, r: Result<Reading>) {
    if Malformed in lines then r == Err(BadLine)
    else if Samples(lines) == [] then r == Err(NoSamples)
    else
      && r.Ok?
      && r.value.avg == Sum(Samples(lines)) as real / |Samples(lines)| as real
      && LeastFromMax(Samples(lines), r.value.lmin)
  }

  /** Lines 69 to 79. */
  method ReadFile(lines: seq<Line>) returns (r: Result<Reading>)
    ensures Summarises(lines, r)
  {
    var total := 0.0;
    var count := 0;
    var lmin := MAXINT;
    var k := 0;
    while k < |lines|
      invariant 0 <= k <= |lines|
      invariant Malformed !in lines[..k]
      invariant total == Sum(Samples(lines[..k])) as real && count == |Samples(lines[..k])|
      invariant LeastFromMax(Samples(lines[..k]), lmin)
    {
      assert lines[..k + 1][..k] == lines[..k] && lines[..k + 1][k] == lines[k];
      match lines[k] {
        case Malformed => return Err(BadLine);
        case Msr =>
          assert Samples(lines[..k + 1]) == Samples(lines[..k]);
        case Sample(latency) =>
          SampleAdded(lines[..k + 1], latency);
          lmin := if latency < lmin then latency else lmin;
          total := total + latency as real;
          count := count + 1;
      }
      k := k + 1;
    }
    assert lines[..k] == lines;
    if count == 0 { return Err(NoSamples); }
    return Ok(Reading(total / count as real, lmin));
  }

  lemma SampleAdded(lines: seq<Line>, latency: int)
    requires lines != [] && lines[|lines| - 1] == Sample(latency)
    ensures Samples(lines) == Samples(lines[..|lines| - 1]) + [latency]
    ensures Sum(Samples(lines)) == Sum(Samples(lines[..|lines| - 1])) + latency
  {
    var before := Samples(lines[..|lines| - 1]);
    assert (before + [latency])[..|before|] == before;
  }

  function Least(xs: seq<int>): int {
    if xs == [] then MAXINT
    else
      var before, x := Least(xs[..|xs| - 1]), xs[|xs| - 1];
      if x < before then x else before
  }

  lemma {:induction false} LeastFound(xs: seq<int>)
    ensures LeastFromMax(xs, Least(xs))
  {
    if xs != [] {
      LeastFound(xs[..|xs| - 1]);
      assert xs == xs[..|xs| - 1] + [xs[|xs| - 1]];
    }
  }

  function Summary(lines: seq<Line>): Result<Reading> {
    var xs := Samples(lines);
    if Malformed in lines then Err(BadLine)
    else if xs == [] then Err(NoSamples)
    else Ok(Reading(Sum(xs) as real / |xs| as real, Least(xs)))
  }

  lemma SummaryUnique(lines: seq<Line>, r: Result<Reading>)
    ensures Summarises(lines, r) <==> r == Summary(lines)
  {
    LeastFound(Samples(lines));
  }

  // ------------------------------------------------------ which lines matter

  lemma SamplesOfOne(x: int)
    ensures Samples([]) == [] && Samples([Sample(x)]) == [x] && Samples([Msr]) == []
  {
    assert [Sample(x)][..0] == [] && [Msr][..0] == [];
  }

  /** Samples are taken line by line. */
  lemma {:induction false} SamplesJoined(a: seq<Line>, b: seq<Line>)
    ensures Samples(a + b) == Samples(a) + Samples(b)
  {
    if b == [] {
      assert a + b == a;
    } else {
      var n := |b| - 1;
      assert (a + b)[..|a + b| - 1] == a + b[..n];
      SamplesJoined(a, b[..n]);
    }
  }

  lemma {:induction false} SumJoined(a: seq<int>, b: seq<int>)
    ensures Sum([]) == 0 && Sum(a + b) == Sum(a) + Sum(b)
    ensures forall x: int :: Sum([x]) == x
  {
    forall x: int ensures Sum([x]) == x { assert [x][..0] == []; }
    if b == [] {
      assert a + b == a;
    } else {
      var n := |b| - 1;
      assert (a + b)[..|a + b| - 1] == a + b[..n];
      SumJoined(a, b[..n]);
    }
  }

  /** A line of an MSR changes nothing, wherever it stands. */
  lemma MsrIgnored(a: seq<Line>, b: seq<Line>)
    ensures Summary(a + [Msr] + b) == Summary(a + b)
  {
    SamplesJoined(a + [Msr], b);
    SamplesJoined(a, [Msr]);
    SamplesJoined(a, b);
    SamplesOfOne(0);
    assert forall x :: x in a + [Msr] + b <==> x in a + b || x == Msr;
    assert Samples(a + [Msr] + b) == Samples(a + b);
    hide Samples, Sum, Least;
  }

  /** What one more sample makes of a file. */
  lemma SampleCounted(a: seq<Line>, b: seq<Line>, x: int)
    ensures |Samples(a + [Sample(x)] + b)| == |Samples(a + b)| + 1
    ensures Sum(Samples(a + [Sample(x)] + b)) == Sum(Samples(a + b)) + x
  {
    SamplesJoined(a + [Sample(x)], b);
    SamplesJoined(a, [Sample(x)]);
    SamplesJoined(a, b);
    SamplesOfOne(x);
    SumJoined(Samples(a) + [x], Samples(b));
    SumJoined(Samples(a), [x]);
    SumJoined(Samples(a), Samples(b));
    hide Samples, Sum;
  }

  // ------------------------------------------------------------- the filter

  /** Line 82, given an average that is not zero. */
  predicate Reliable(r: Reading)
    requires r.avg != 0.0
  {
    !(100.0 * r.lmin as real / r.avg < 80.0)
  }

  lemma ScaleFraction(a: real, t: real, n: real)
    requires n > 0.0 && t != 0.0
    ensures a / (t / n) == a * n / t
  {
    assert t / n * n == t;
    var q := a / (t / n);
    assert q * (t / n) == a;
    assert q * t == a * n by { assert q * (t / n) * n == q * (t / n * n); }
  }

  lemma ScaleOrder(q: real, c: real, t: real)
    requires t != 0.0
    ensures q < c <==> if t > 0.0 then q * t < c * t else q * t > c * t
  {
    var d := c - q;
    assert c * t - q * t == d * t;
    if t > 0.0 { assert d > 0.0 <==> d * t > 0.0; } else { assert d > 0.0 <==> d * t < 0.0; }
  }

  lemma IntegerTerms(count: int, lmin: int)
    ensures 100.0 * lmin as real * count as real == (100 * lmin * count) as real
  {
    var a := 100 * lmin;
    assert 100.0 * lmin as real == a as real;
    ProductCast(a, count);
  }

  lemma {:induction false} ProductCast(a: int, b: int)
    ensures a as real * b as real == (a * b) as real
  {
  }

  /** The filter in integers. When the total is negative its sense is reversed. */
  lemma ReliableInIntegers(total: int, count: nat, lmin: int)
    requires count > 0 && total != 0
    ensures total as real / count as real != 0.0
    ensures Reliable(Reading(total as real / count as real, lmin))
        <==> if total > 0 then 100 * lmin * count >= 80 * total else 100 * lmin * count <= 80 * total
  {
    var t, n, a := total as real, count as real, 100.0 * lmin as real;
    assert t / n * n == t;
    ScaleFraction(a, t, n);
    var q := a * n / t;
    assert q * t == a * n;
    IntegerTerms(count, lmin);
    ScaleOrder(q, 80.0, t);
    assert Reliable(Reading(t / n, lmin)) <==> !(q < 80.0);
    assert 80.0 * t == (80 * total) as real;
    hide Reliable;
  }

  /** What a file contributes: a failure, nothing if it is unreliable, or an entry. */
  function Verdict(uarch: string -> Option<string>, f: DataFile): Result<Option<Entry>> {
    match Summary(f.lines)
    case Err(failure) => Err(failure)
    case Ok(r) =>
      if r.avg == 0.0 then Err(ZeroAverage)
      else if !Reliable(r) then Ok(None)
      else match uarch(f.cpu) case None => Err(UnknownArchitecture) case Some(u) => Ok(Some(Entry(u, r)))
  }

  predicate Fails(uarch: string -> Option<string>, f: DataFile) { Verdict(uarch, f).Err? }

  /** The file is reliable and of microarchitecture `u`. */
  predicate Counts(uarch: string -> Option<string>, f: DataFile, u: string) {
    var v := Verdict(uarch, f);
    v.Ok? && v.value.Some? && v.value.value.uarch == u
  }

  function ReadingOf(uarch: string -> Option<string>, f: DataFile, u: string): Reading
    requires Counts(uarch, f, u)
  {
    Verdict(uarch, f).value.value.reading
  }

  /** The search for the minimum has one result. */
  lemma LeastUnique(xs: seq<int>, least: int)
    requires LeastFromMax(xs, least)
    ensures least == Least(xs)
  {
    LeastFound(xs);
    hide Least;
  }

  /** What becomes of a file, in integers: with n samples of total t and least value l, it counts
      for `u` exactly if no line is malformed, there are samples, they do not add up to 0, l is at
      least 80 % of the average (at most, if that is negative), and the processor is of
      microarchitecture `u`; its entry is (t / n, l). */
  lemma CountsInIntegers(uarch: string -> Option<string>, f: DataFile, u: string, l: int)
    requires var xs := Samples(f.lines);
      l <= 9223372036854775807 && (forall x :: x in xs ==> l <= x) && (l in xs || l == 9223372036854775807)
    ensures var n, t := |Samples(f.lines)|, Sum(Samples(f.lines));
      Counts(uarch, f, u)
      <==> && Malformed !in f.lines && n > 0 && t != 0
           && (if t > 0 then 100 * l * n >= 80 * t else 100 * l * n <= 80 * t)
           && uarch(f.cpu) == Some(u)
    ensures var n, t := |Samples(f.lines)|, Sum(Samples(f.lines));
      Counts(uarch, f, u) ==> n > 0 && ReadingOf(uarch, f, u) == Reading(t as real / n as real, l)
  {
    LeastUnique(Samples(f.lines), l);
    Average(f, l);
    hide Samples, Sum, Least, Reliable;
  }

  lemma Average(f: DataFile, l: int)
    ensures var n, t := |Samples(f.lines)|, Sum(Samples(f.lines));
      n > 0 ==>
        && (t as real / n as real == 0.0 <==> t == 0)
        && (t != 0 ==>
              (Reliable(Reading(t as real / n as real, l))
               <==> if t > 0 then 100 * l * n >= 80 * t else 100 * l * n <= 80 * t))
  {
    var n, t := |Samples(f.lines)|, Sum(Samples(f.lines));
    if n > 0 && t != 0 { ReliableInIntegers(t, n, l); }
    hide Samples, Sum, Reliable;
  }

  /** It fails exactly if a line is malformed, there are no samples, they add up to 0, or the
      filter lets it pass and the processor is unknown; each case has its own failure. */
  lemma FailsInIntegers(uarch: string -> Option<string>, f: DataFile, l: int)
    requires var xs := Samples(f.lines);
      l <= 9223372036854775807 && (forall x :: x in xs ==> l <= x) && (l in xs || l == 9223372036854775807)
    ensures var n, t := |Samples(f.lines)|, Sum(Samples(f.lines));
      var passes := if t > 0 then 100 * l * n >= 80 * t else 100 * l * n <= 80 * t;
      && (Fails(uarch, f) <==> Malformed in f.lines || n == 0 || t == 0 || (passes && uarch(f.cpu).None?))
      && (Fails(uarch, f) ==>
            Verdict(uarch, f) == Err(
              if Malformed in f.lines then BadLine else if n == 0 then NoSamples
              else if t == 0 then ZeroAverage else UnknownArchitecture))
  {
    LeastUnique(Samples(f.lines), l);
    Average(f, l);
    hide Samples, Sum, Least, Reliable;
  }

  // ------------------------------------------------------------- all files

  /** File i has the least minimum among those that count for `u`, and is the first to have it. */
  ghost predicate Wins(uarch: string -> Option<string>, files: seq<DataFile>, u: string, i: nat) {
    && i < |files| && Counts(uarch, files[i], u)
    && var best := ReadingOf(uarch, files[i], u).lmin;
       && (forall j :: 0 <= j < |files| && Counts(uarch, files[j], u) ==> best <= ReadingOf(uarch, files[j], u).lmin)
       && (forall j :: 0 <= j < i && Counts(uarch, files[j], u) ==> best < ReadingOf(uarch, files[j], u).lmin)
  }

  ghost predicate Selected(uarch: string -> Option<string>, files: seq<DataFile>, u: string, r: Reading) {
    exists i: nat :: Wins(uarch, files, u, i) && r == ReadingOf(uarch, files[i], u)
  }

  ghost predicate Represented(uarch: string -> Option<string>, files: seq<DataFile>, u: string) {
    exists i :: 0 <= i < |files| && Counts(uarch, files[i], u)
  }

  /** The table agrees with the files. */
  ghost predicate Agrees(uarch: string -> Option<string>, files: seq<DataFile>, cpus: map<string, Reading>) {
    && (forall u :: u in cpus <==> Represented(uarch, files, u))
    && (forall u :: u in cpus ==> Selected(uarch, files, u, cpus[u]))
  }

  /** The first file that fails decides the failure. */
  ghost predicate FailsWith(uarch: string -> Option<string>, files: seq<DataFile>, failure: Failure) {
    exists i :: 0 <= i < |files| && Verdict(uarch, files[i]) == Err(failure)
      && forall j :: 0 <= j < i ==> !Fails(uarch, files[j])
  }

  /** Lines 65 to 91. */
  method Aggregate(files: seq<DataFile>, uarch: string -> Option<string>) returns (cpus: Result<map<string, Reading>>)
    ensures cpus.Ok? <==> forall i :: 0 <= i < |files| ==> !Fails(uarch, files[i])
    ensures cpus.Ok? ==> Agrees(uarch, files, cpus.value)
    ensures cpus.Err? ==> FailsWith(uarch, files, cpus.failure)
  {
    hide Agrees, Summarises, Summary, Reliable;
    var table: map<string, Reading> := map[];
    var k := 0;
    NothingAgrees(uarch);
    assert files[..0] == [];
    while k < |files|
      invariant 0 <= k <= |files|
      invariant forall i :: 0 <= i < k ==> !Fails(uarch, files[i])
      invariant Agrees(uarch, files[..k], table)
    {
      var f := files[k];
      assert files[..k + 1] == files[..k] + [f];
      var r := ReadFile(f.lines);
      SummaryUnique(f.lines, r);
      if r.Err? { return Err(r.failure); }
      var avg, lmin := r.value.avg, r.value.lmin;
      if avg == 0.0 { return Err(ZeroAverage); }
      if !Reliable(r.value) {
        Skipped(uarch, files[..k], f, table);
        k := k + 1;
        continue;
      }
      var named := uarch(f.cpu);
      if named.None? { return Err(UnknownArchitecture); }
      var u := named.value;
      Entered(uarch, files[..k], f, table, u);
      if u in table {
        if lmin < table[u].lmin {
          table := table[u := Reading(avg, lmin)];
        }
      } else {
        table := table[u := Reading(avg, lmin)];
      }
      k := k + 1;
    }
    assert files[..k] == files;
    return Ok(table);
  }

  lemma NothingAgrees(uarch: string -> Option<string>)
    ensures Agrees(uarch, [], map[])
  {
  }

  /** A file that does not count for `u` changes nothing for `u`. */
  lemma OneMore(uarch: string -> Option<string>, files: seq<DataFile>, f: DataFile, u: string)
    requires !Counts(uarch, f, u)
    ensures Represented(uarch, files + [f], u) <==> Represented(uarch, files, u)
    ensures forall i: nat :: Wins(uarch, files + [f], u, i) <==> Wins(uarch, files, u, i)
    ensures forall r :: Selected(uarch, files + [f], u, r) <==> Selected(uarch, files, u, r)
  {
    hide Counts, ReadingOf;
    var now := files + [f];
    assert now[|files|] == f;
    assert forall j :: 0 <= j < |files| ==> now[j] == files[j];
    forall i: nat ensures Wins(uarch, now, u, i) <==> Wins(uarch, files, u, i) {
      if i < |files| { assert now[i] == files[i]; }
    }
  }

  lemma Skipped(uarch: string -> Option<string>, files: seq<DataFile>, f: DataFile, table: map<string, Reading>)
    requires Agrees(uarch, files, table) && forall u :: !Counts(uarch, f, u)
    ensures Agrees(uarch, files + [f], table)
  {
    forall u ensures u in table <==> Represented(uarch, files + [f], u)
      ensures u in table ==> Selected(uarch, files + [f], u, table[u])
    {
      OneMore(uarch, files, f, u);
    }
  }

  function Updated(table: map<string, Reading>, u: string, r: Reading): map<string, Reading> {
    if u !in table || r.lmin < table[u].lmin then table[u := r] else table
  }

  lemma Entered(uarch: string -> Option<string>, files: seq<DataFile>, f: DataFile, table: map<string, Reading>,
      u: string)
    requires Agrees(uarch, files, table) && Counts(uarch, f, u)
    ensures Agrees(uarch, files + [f], Updated(table, u, ReadingOf(uarch, f, u)))
  {
    var now, next := files + [f], Updated(table, u, ReadingOf(uarch, f, u));
    forall v
      ensures v in next <==> Represented(uarch, now, v)
      ensures v in next ==> Selected(uarch, now, v, next[v])
    {
      if v != u {
        OneMore(uarch, files, f, v);
      } else {
        EnteredHere(uarch, files, f, table, u);
      }
    }
  }

  lemma EnteredHere(uarch: string -> Option<string>, files: seq<DataFile>, f: DataFile, table: map<string, Reading>,
      u: string)
    requires Agrees(uarch, files, table) && Counts(uarch, f, u)
    ensures Represented(uarch, files + [f], u)
    ensures var next := Updated(table, u, ReadingOf(uarch, f, u)); u in next && Selected(uarch, files + [f], u, next[u])
  {
    hide Counts, ReadingOf;
    var now := files + [f];
    assert now[|files|] == f;
    assert forall j :: 0 <= j < |files| ==> now[j] == files[j];
    if u !in table || ReadingOf(uarch, f, u).lmin < table[u].lmin {
      if u !in table { assert !Represented(uarch, files, u); } else { assert Selected(uarch, files, u, table[u]); }
      assert Wins(uarch, now, u, |files|);
    } else {
      var i: nat :| Wins(uarch, files, u, i) && table[u] == ReadingOf(uarch, files[i], u);
      assert Wins(uarch, now, u, i);
    }
  }

  // ---------------------------------------------------------- order of the files

  lemma SameFiles(a: seq<DataFile>, b: seq<DataFile>)
    requires multiset(a) == multiset(b)
    ensures forall f :: f in a <==> f in b
  {
    forall f ensures f in a <==> f in b {
      assert f in a <==> f in multiset(a);
      assert f in b <==> f in multiset(b);
    }
  }

  /** Some file attains the minimum `least`. */
  ghost predicate Attains(uarch: string -> Option<string>, files: seq<DataFile>, u: string, f: DataFile, least: int) {
    f in files && Counts(uarch, f, u) && ReadingOf(uarch, f, u).lmin == least
  }

  ghost predicate Minimal(uarch: string -> Option<string>, files: seq<DataFile>, u: string, least: int) {
    forall f :: f in files && Counts(uarch, f, u) ==> least <= ReadingOf(uarch, f, u).lmin
  }

  lemma SelectedMinimal(uarch: string -> Option<string>, files: seq<DataFile>, u: string, r: Reading)
      returns (f: DataFile)
    requires Selected(uarch, files, u, r)
    ensures Minimal(uarch, files, u, r.lmin)
    ensures Attains(uarch, files, u, f, r.lmin) && ReadingOf(uarch, f, u) == r
  {
    hide Counts, ReadingOf;
    var i: nat :| Wins(uarch, files, u, i) && r == ReadingOf(uarch, files[i], u);
    f := files[i];
  }

  /** Of the files that attain the minimum the first gives the average. */
  lemma FirstSelected(uarch: string -> Option<string>, files: seq<DataFile>, u: string, r: Reading, i: nat)
    requires Selected(uarch, files, u, r)
    requires i < |files| && Counts(uarch, files[i], u) && ReadingOf(uarch, files[i], u).lmin == r.lmin
    requires forall j :: 0 <= j < i && Counts(uarch, files[j], u) ==> ReadingOf(uarch, files[j], u).lmin != r.lmin
    ensures r == ReadingOf(uarch, files[i], u)
  {
    hide Counts, ReadingOf;
    var k: nat :| Wins(uarch, files, u, k) && r == ReadingOf(uarch, files[k], u);
  }

  /** The minimum does not depend on the order in which the directory lists the
      files, and neither does the set of microarchitectures. */
  lemma MinimumIgnoresOrder(uarch: string -> Option<string>, a: seq<DataFile>, b: seq<DataFile>, u: string,
      r: Reading, s: Reading)
    requires multiset(a) == multiset(b)
    ensures Represented(uarch, a, u) <==> Represented(uarch, b, u)
    ensures Selected(uarch, a, u, r) && Selected(uarch, b, u, s) ==> r.lmin == s.lmin
  {
    hide Counts, ReadingOf, Selected;
    SameFiles(a, b);
    assert forall i :: 0 <= i < |a| ==> a[i] in b;
    assert forall i :: 0 <= i < |b| ==> b[i] in a;
    if Selected(uarch, a, u, r) && Selected(uarch, b, u, s) {
      var f := SelectedMinimal(uarch, a, u, r);
      var g := SelectedMinimal(uarch, b, u, s);
    }
  }

  ghost predicate OrderFree(uarch: string -> Option<string>, a: seq<DataFile>, u: string, r: Reading) {
    forall b, s :: multiset(b) == multiset(a) && Selected(uarch, b, u, s) ==> s == r
  }

  /** The average selected for a microarchitecture is independent of the order of
      the files exactly when all files that attain the minimum have the same average. */
  lemma AverageIgnoresOrder(uarch: string -> Option<string>, a: seq<DataFile>, u: string, r: Reading)
    requires Selected(uarch, a, u, r)
    ensures OrderFree(uarch, a, u, r) <==> forall f :: Attains(uarch, a, u, f, r.lmin) ==> ReadingOf(uarch, f, u) == r
  {
    hide Counts, ReadingOf, Selected;
    forall b, s | multiset(b) == multiset(a) && Selected(uarch, b, u, s)
      ensures exists f :: Attains(uarch, a, u, f, r.lmin) && ReadingOf(uarch, f, u) == s
    {
      MinimumIgnoresOrder(uarch, a, b, u, r, s);
      SameFiles(a, b);
      var f := SelectedMinimal(uarch, b, u, s);
      assert Attains(uarch, a, u, f, r.lmin);
    }
    forall f | Attains(uarch, a, u, f, r.lmin) && OrderFree(uarch, a, u, r)
      ensures ReadingOf(uarch, f, u) == r
    {
      var b := ListedFirst(uarch, a, u, r, f);
    }
  }

  /** Any file that attains the minimum is selected in some order: the one that lists it first. */
  lemma ListedFirst(uarch: string -> Option<string>, a: seq<DataFile>, u: string, r: Reading, f: DataFile)
    returns (b: seq<DataFile>)
    requires Selected(uarch, a, u, r) && Attains(uarch, a, u, f, r.lmin)
    ensures multiset(b) == multiset(a) && Selected(uarch, b, u, ReadingOf(uarch, f, u))
  {
    hide Counts, ReadingOf;
    var _ := SelectedMinimal(uarch, a, u, r);
    b := MovedFirst(a, f);
    SameFiles(a, b);
    assert forall j :: 0 <= j < |b| ==> b[j] in a;
    assert Wins(uarch, b, u, 0);
  }

  lemma MovedFirst(a: seq<DataFile>, f: DataFile) returns (b: seq<DataFile>)
    requires f in a
    ensures multiset(b) == multiset(a) && b != [] && b[0] == f
  {
    var k :| 0 <= k < |a| && a[k] == f;
    b := [f] + (a[..k] + a[k + 1..]);
    assert a == a[..k] + ([f] + a[k + 1..]);
  }
}
