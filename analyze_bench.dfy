/**
 * The offline analysis of the upload benchmark's CSV (`analysis/analyze_bench.py`): the
 * linearly interpolated percentile, the file-name sort key and size labels, the column
 * check and ordering of `load_data`, and the per-file summary of `summarise`.
 */
module AnalyzeBench {
  import opened Outcomes
  import opened Grouping
  import opened Samples
  import opened Text

  // ------------------------------------------------------------------ percentile

  /** Python's `math.ceil`. */
  function Ceil(x: real): (c: int)
    ensures (c - 1) as real < x <= c as real
  {
    -((-x).Floor)
  }

  /** The rank `k = (n - 1) * pct` of a fraction `pct` lies in `[0, n - 1]`. */
  lemma RankWithin(n: nat, pct: real)
    requires n >= 1 && 0.0 <= pct <= 1.0
    ensures 0.0 <= Rank(n, pct) <= (n - 1) as real
  {
    var m := (n - 1) as real;
    RealMulNonNegative(m, pct);
    RealMulNonNegative(m, 1.0 - pct);
  }

  lemma RealMulNonNegative(x: real, y: real)
    requires x >= 0.0 && y >= 0.0
    ensures x * y >= 0.0
  {
  }

  /** The rank of `percentile` over samples whose sorted form has length `n`. */
  function Rank(n: nat, pct: real): real
  {
    (n - 1) as real * pct
  }

  /**
   * The value `percentile` picks at rank `k` of sorted samples: the element at an integral
   * rank, and otherwise the two neighbours weighted by their distance from `k`.
   */
  function AtRank(sorted: seq<real>, k: real): real
    requires |sorted| > 0 && 0.0 <= k <= (|sorted| - 1) as real
  {
    var f, c := k.Floor, Ceil(k);
    if f == c then sorted[k.Floor]
    else sorted[f] * (c as real - k) + sorted[c] * (k - f as real)
  }

  /** `percentile(values, pct)`; the NaN of an empty list is None. */
  function Percentile(values: seq<real>, pct: real): (r: Option<real>)
    requires 0.0 <= pct <= 1.0
    ensures r.None? <==> values == []
  {
    if values == [] then None
    else
      var n, sorted := |values|, SortReals(values);
      RankWithin(n, pct);
      Some(AtRank(sorted, Rank(n, pct)))
  }

  /** A weighted mean of `a <= b` with weight `w` in `[0, 1]` lies between them. */
  lemma Between(a: real, b: real, w: real)
    requires a <= b && 0.0 <= w <= 1.0
    ensures a * (1.0 - w) + b * w == a + (b - a) * w
    ensures a <= a + (b - a) * w <= b
  {
    RealMulNonNegative(b - a, w);
    RealMulNonNegative(b - a, 1.0 - w);
  }

  /** The floor and the ceiling of a rank in `[0, n - 1]` are indices, at most one apart. */
  lemma RankIndices(n: nat, k: real)
    requires n > 0 && 0.0 <= k <= (n - 1) as real
    ensures 0 <= k.Floor <= Ceil(k) < n
    ensures k.Floor == Ceil(k) <==> k == k.Floor as real
    ensures k.Floor != Ceil(k) ==> Ceil(k) == k.Floor + 1
  {
    assert k.Floor as real <= k < k.Floor as real + 1.0;
  }

  /**
   * The floor and ceiling of the rank are indices of the samples; at an integral rank the
   * result is the element there, and otherwise the ceiling is the next index and the
   * result is the interpolation between the two, which lies between them.
   */
  lemma AtRankBracket(s: seq<real>, k: real)
    requires |s| > 0 && 0.0 <= k <= (|s| - 1) as real && IsSorted(s)
    ensures 0 <= k.Floor <= Ceil(k) < |s|
    ensures k.Floor == Ceil(k) <==> k == k.Floor as real
    ensures k.Floor == Ceil(k) ==> AtRank(s, k) == s[k.Floor]
    ensures k.Floor != Ceil(k) ==>
              Ceil(k) == k.Floor + 1
              && AtRank(s, k) == s[k.Floor] + (s[Ceil(k)] - s[k.Floor]) * (k - k.Floor as real)
              && s[k.Floor] <= AtRank(s, k) <= s[Ceil(k)]
  {
    RankIndices(|s|, k);
    var f, c := k.Floor, Ceil(k);
    if f != c {
      var w := k - f as real;
      assert c as real - k == 1.0 - w;
      assert s[f] <= s[c];
      Between(s[f], s[c], w);
    }
  }

  /** `AtRank` of `Percentile` over the sorted samples, with its rank in range. */
  lemma PercentileAt(values: seq<real>, pct: real)
    requires values != [] && 0.0 <= pct <= 1.0
    ensures 0.0 <= Rank(|values|, pct) <= (|values| - 1) as real
    ensures Percentile(values, pct) == Some(AtRank(SortReals(values), Rank(|values|, pct)))
  {
    RankWithin(|values|, pct);
  }

  /** Every percentile of the samples lies between their minimum and their maximum. */
  lemma PercentileWithin(values: seq<real>, pct: real)
    requires values != [] && 0.0 <= pct <= 1.0
    ensures SeqMin(values) <= Percentile(values, pct).value <= SeqMax(values)
  {
    var s, k := SortReals(values), Rank(|values|, pct);
    PercentileAt(values, pct);
    AtRankBracket(s, k);
    SortedEnds(values, s);
    var f, c := k.Floor, Ceil(k);
    assert s[0] <= s[f] && s[c] <= s[|s| - 1];
  }

  /** At an integral rank `percentile` picks that element. */
  lemma AtRankIntegral(s: seq<real>, j: nat)
    requires j < |s|
    ensures AtRank(s, j as real) == s[j]
  {
    assert (j as real).Floor == j;
  }

  /** Half-way between two ranks `percentile` is the mean of the two elements. */
  lemma AtRankHalf(s: seq<real>, j: nat)
    requires j + 1 < |s|
    ensures AtRank(s, j as real + 0.5) == (s[j] + s[j + 1]) / 2.0
  {
    var k := j as real + 0.5;
    assert k.Floor == j;
    assert Ceil(k) == j + 1;
  }

  /** The 0th percentile is the minimum and the 100th the maximum. */
  lemma PercentileEnds(values: seq<real>)
    requires values != []
    ensures Percentile(values, 0.0) == Some(SeqMin(values))
    ensures Percentile(values, 1.0) == Some(SeqMax(values))
  {
    var s, n := SortReals(values), |values|;
    SortedEnds(values, s);
    PercentileAt(values, 0.0);
    PercentileAt(values, 1.0);
    assert Rank(n, 0.0) == 0 as real;
    assert Rank(n, 1.0) == (n - 1) as real;
    AtRankIntegral(s, 0);
    AtRankIntegral(s, n - 1);
  }

  /** The middle rank: a whole index for an odd count, half-way between two for an even one. */
  lemma RankHalf(n: nat)
    requires n >= 1
    ensures n % 2 == 1 ==> Rank(n, 0.5) == (n / 2) as real
    ensures n % 2 == 0 ==> n >= 2 && Rank(n, 0.5) == (n / 2 - 1) as real + 0.5
  {
  }

  /** Ranking half-way through any samples picks their median. */
  lemma AtRankMedian(s: seq<real>)
    requires |s| > 0
    ensures 0.0 <= Rank(|s|, 0.5) <= (|s| - 1) as real
    ensures AtRank(s, Rank(|s|, 0.5)) == Median(s)
  {
    var n := |s|;
    RankHalf(n);
    if n % 2 == 1 {
      AtRankIntegral(s, n / 2);
    } else {
      AtRankHalf(s, n / 2 - 1);
    }
  }

  /** The 50th percentile is the median: the middle element, or the mean of the middle two. */
  lemma PercentileMedian(values: seq<real>)
    requires values != []
    ensures Percentile(values, 0.5) == Some(Median(SortReals(values)))
  {
    PercentileAt(values, 0.5);
    AtRankMedian(SortReals(values));
  }

  /** `d * x <= d * y` for a non-negative `d` and `x <= y`. */
  lemma ScaleMonotone(d: real, x: real, y: real)
    requires d >= 0.0 && x <= y
    ensures d * x <= d * y
  {
    RealMulNonNegative(d, y - x);
  }

  lemma RankMonotone(n: nat, p: real, q: real)
    requires n >= 1 && p <= q
    ensures Rank(n, p) <= Rank(n, q)
  {
    ScaleMonotone((n - 1) as real, p, q);
  }

  /** A higher rank never picks a lower value. */
  lemma AtRankMonotone(s: seq<real>, k1: real, k2: real)
    requires |s| > 0 && IsSorted(s) && 0.0 <= k1 <= k2 <= (|s| - 1) as real
    ensures AtRank(s, k1) <= AtRank(s, k2)
  {
    AtRankBracket(s, k1);
    AtRankBracket(s, k2);
    var f1, c1, f2, c2 := k1.Floor, Ceil(k1), k2.Floor, Ceil(k2);
    assert f1 <= f2;
    if f1 < f2 {
      assert c1 <= f2;
      assert AtRank(s, k1) <= s[c1] <= s[f2] <= AtRank(s, k2);
    } else if f1 == c1 {
      assert AtRank(s, k1) == s[f2] <= AtRank(s, k2);
    } else {
      assert k2 != f2 as real;
      assert c2 == c1;
      WeightMonotone(s[f1], s[c1], k1 - f1 as real, k2 - f1 as real, AtRank(s, k1), AtRank(s, k2));
    }
  }

  /** Interpolating between `a <= b` with a larger weight gives a larger value. */
  lemma WeightMonotone(a: real, b: real, w1: real, w2: real, r1: real, r2: real)
    requires a <= b && w1 <= w2
    requires r1 == a + (b - a) * w1 && r2 == a + (b - a) * w2
    ensures r1 <= r2
  {
    ScaleMonotone(b - a, w1, w2);
  }

  /** A higher fraction never gives a lower percentile: p50 <= p95 <= max. */
  lemma PercentileMonotone(values: seq<real>, p: real, q: real)
    requires values != [] && 0.0 <= p <= q <= 1.0
    ensures Percentile(values, p).value <= Percentile(values, q).value
  {
    var s, n := SortReals(values), |values|;
    PercentileAt(values, p);
    PercentileAt(values, q);
    var k1, k2 := Rank(n, p), Rank(n, q);
    RankMonotone(n, p, q);
    AtRankMonotone(s, k1, k2);
  }

  // ------------------------------------------------------------------ sort_key

  /** `FILE_SORT_ORDER`: the size in MiB of each standard test file. */
  const FileSortOrder: map<string, real> := map[
    "test10m.dat" := 10.0, "test50m.dat" := 50.0, "test100m.dat" := 100.0,
    "test250m.dat" := 250.0, "test500m.dat" := 500.0, "test1g.dat" := 1024.0,
    "test2g.dat" := 2048.0, "test4g.dat" := 4096.0]

  /** A sort key: a finite float, or `float("inf")` for names the rules do not recognise. */
  datatype SortKey = Finite(value: real) | Infinity

  /** Why `sort_key` raised: `split("test", 1)[1]` had no second part, or `float(...)` refused the text. */
  datatype KeyFailure = NoTestMarker | NotANumber(text: string)

  /** `s.endswith(suffix)`. */
  predicate EndsWith(s: string, suffix: string)
  {
    |suffix| <= |s| && s[|s| - |suffix|..] == suffix
  }

  /**
   * `s.split(sep, 1)`: the text before the first occurrence of `sep` and, when there is
   * one, the text after it.
   */
  function SplitOnce(s: string, sep: string): (parts: (string, Option<string>))
    requires sep != []
    ensures parts.1.None? ==> parts.0 == s
    ensures parts.1.Some? ==> s == parts.0 + sep + parts.1.value
    decreases |s|
  {
    if IsPrefix(sep, s) then
      assert s == [] + sep + s[|sep|..];
      ([], Some(s[|sep|..]))
    else if s == [] then ([], None)
    else
      var parts := SplitOnce(s[1..], sep);
      ConsParts(s, parts.0, sep, parts.1);
      ([s[0]] + parts.0, parts.1)
  }

  /** Putting back the first character of `s` in front of a split of the rest of `s`. */
  lemma ConsParts(s: string, h: string, sep: string, t: Option<string>)
    requires s != []
    requires t.None? ==> h == s[1..]
    requires t.Some? ==> s[1..] == h + sep + t.value
    ensures t.None? ==> [s[0]] + h == s
    ensures t.Some? ==> s == ([s[0]] + h) + sep + t.value
  {
    assert s == [s[0]] + s[1..];
  }

  /** The split is at the first occurrence of the separator, and there is none when nothing follows. */
  lemma SplitOnceFirst(s: string, sep: string)
    requires sep != []
    ensures SplitOnce(s, sep).1.None? ==> forall i :: !OccursAt(s, sep, i)
    ensures forall i :: OccursAt(s, sep, i) ==> i >= |SplitOnce(s, sep).0|
  {
    forall i | OccursAt(s, sep, i) ensures i >= |SplitOnce(s, sep).0| {
      SplitOnceBefore(s, sep, i);
    }
  }

  lemma {:induction false} SplitOnceBefore(s: string, sep: string, i: int)
    requires sep != [] && OccursAt(s, sep, i)
    ensures i >= |SplitOnce(s, sep).0|
    decreases |s|
  {
    if !IsPrefix(sep, s) {
      assert i > 0;
      assert s[1..][i - 1..i - 1 + |sep|] == s[i..i + |sep|];
      SplitOnceBefore(s[1..], sep, i - 1);
    }
  }

  predicate IsDigit(c: char)
  {
    '0' <= c <= '9'
  }

  predicate AllDigits(s: string)
  {
    forall i :: 0 <= i < |s| ==> IsDigit(s[i])
  }

  /** The value of a string of decimal digits. */
  function DigitsValue(s: string): nat
    requires AllDigits(s)
  {
    if s == [] then 0 else 10 * DigitsValue(s[..|s| - 1]) + (s[|s| - 1] as int - '0' as int)
  }

  function Pow10(n: nat): (p: real)
    ensures p >= 1.0
  {
    if n == 0 then 1.0 else 10.0 * Pow10(n - 1)
  }

  /**
   * `float(t)` for the plain decimal forms a file name carries: digits, optionally with a
   * fractional part (`"1.5"`, `"2."`, `".5"`).
   */
  function ParseDecimal(t: string): (r: Option<real>)
    ensures t != [] && AllDigits(t) ==> r == Some(DigitsValue(t) as real)
    ensures r.Some? ==> r.value >= 0.0
  {
    if t != [] && AllDigits(t) then Some(DigitsValue(t) as real)
    else if '.' in t then
      var i := IndexOf(t, '.');
      var whole, frac := t[..i], t[i + 1..];
      if (whole != [] || frac != []) && AllDigits(whole) && AllDigits(frac)
      then Some(DigitsValue(whole) as real + DigitsValue(frac) as real / Pow10(|frac|))
      else None
    else None
  }

  /** `file.split("test", 1)[1].split(unit, 1)[0]`: the text between the marker and the unit. */
  function SizeText(file: string, unit: char): Result<string, KeyFailure>
  {
    match SplitOnce(file, "test").1
    case None => Err(NoTestMarker)
    case Some(rest) => Ok(SplitOnce(rest, [unit]).0)
  }

  /** The MiB a size in `unit` stands for: `* 1024` for gigabytes. */
  function InMiB(v: real, unit: char): real
  {
    if unit == 'g' then v * 1024.0 else v
  }

  /**
   * `float(file.split("test", 1)[1].split(unit, 1)[0])`, times 1024 for the `g` rule.
   */
  function SizeFromName(file: string, unit: char): Result<SortKey, KeyFailure>
  {
    match SizeText(file, unit)
    case Err(e) => Err(e)
    case Ok(text) =>
      match ParseDecimal(text)
      case None => Err(NotANumber(text))
      case Some(v) => Ok(Finite(InMiB(v, unit)))
  }

  /** The parsing rules of `sort_key`, after the table lookup. */
  function RuleKey(file: string): Result<SortKey, KeyFailure>
  {
    if EndsWith(file, "g.dat") then SizeFromName(file, 'g')
    else if EndsWith(file, "m.dat") then SizeFromName(file, 'm')
    else Ok(Infinity)
  }

  /** `sort_key(file)`: the table takes precedence over the parsing rules. */
  function SortKeyOf(file: string): Result<SortKey, KeyFailure>
  {
    if file in FileSortOrder then Ok(Finite(FileSortOrder[file])) else RuleKey(file)
  }

  /** Splitting at a one-character separator that does not occur in the head finds it right after the head. */
  lemma {:induction false} SplitAfter(h: string, c: char, t: string)
    requires c !in h
    ensures SplitOnce(h + [c] + t, [c]) == (h, Some(t))
  {
    var s := h + [c] + t;
    assert OccursAt(s, [c], |h|) by { assert s[|h|..|h| + 1] == [c]; }
    if h != [] {
      assert !IsPrefix([c], s) by { assert s[..1] == [h[0]]; }
      assert s[1..] == h[1..] + [c] + t;
      SplitAfter(h[1..], c, t);
    } else {
      assert IsPrefix([c], s) by { assert s[..1] == [c]; }
    }
  }

  /** `test<N><unit>.dat` carries the size `N` in that unit, for a digit string `N`. */
  lemma {:induction false} SizeFromDigits(n: string, unit: char)
    requires n != [] && AllDigits(n) && !IsDigit(unit)
    ensures SizeFromName("test" + n + [unit] + ".dat", unit) == Ok(Finite(InMiB(DigitsValue(n) as real, unit)))
  {
    var file := "test" + n + [unit] + ".dat";
    assert IsPrefix("test", file) by { assert file[..4] == "test"; }
    assert file[4..] == n + [unit] + ".dat";
    assert unit !in n by { assert forall i :: 0 <= i < |n| ==> n[i] != unit; }
    SplitAfter(n, unit, ".dat");
    assert SplitOnce(file, "test") == ([], Some(file[4..]));
    assert SizeText(file, unit) == Ok(n);
    var v := DigitsValue(n) as real;
    assert ParseDecimal(n) == Some(v);
  }

  /** Which of the two suffixes the rules test for a name built from a unit letter ends in. */
  lemma UnitSuffix(file: string, n: string, unit: char)
    requires file == "test" + n + [unit] + ".dat"
    ensures EndsWith(file, "g.dat") <==> unit == 'g'
    ensures EndsWith(file, "m.dat") <==> unit == 'm'
  {
    var tail := file[|file| - 5..];
    assert tail == [unit] + ".dat";
    assert tail[0] == unit && tail[1..] == ".dat";
  }

  /** The name `test<N><unit>.dat` of a generated test file. */
  function SizedName(n: string, unit: char): string
  {
    "test" + n + [unit] + ".dat"
  }

  /**
   * A name outside the table of the form `test<N><unit>.dat`, for a digit string `N`, has
   * key `N` in MiB: `N * 1024` for the `g` rule and `N` for the `m` rule.
   */
  lemma NamedSize(n: string, unit: char)
    requires n != [] && AllDigits(n) && (unit == 'g' || unit == 'm')
    ensures RuleKey(SizedName(n, unit)) == Ok(Finite(InMiB(DigitsValue(n) as real, unit)))
  {
    var file := SizedName(n, unit);
    UnitSuffix(file, n, unit);
    SizeFromDigits(n, unit);
  }

  /** Outside the table the key is the parsing rules' key. */
  lemma RulesOutsideTable(file: string)
    requires file !in FileSortOrder
    ensures SortKeyOf(file) == RuleKey(file)
  {
  }

  /** A name that ends in neither `g.dat` nor `m.dat` sorts last. */
  lemma UnknownNamesLast(file: string)
    requires file !in FileSortOrder && !EndsWith(file, "g.dat") && !EndsWith(file, "m.dat")
    ensures SortKeyOf(file) == Ok(Infinity)
  {
  }

  // ------------------------------------------------------------------ size labels

  /** The two forms `size_label` renders: GiB with one decimal or MiB with none. */
  datatype SizeLabel = GiB(gib: real) | MiB(mib: real)

  /** `size_label(file, summary)`: a file without a summary entry is a KeyError (None). */
  function SizeLabelOf(file: string, summary: seq<Entry<string, FileStats>>): (r: Option<SizeLabel>)
    ensures r.None? <==> file !in Keys(summary)
    ensures r.Some? ==> var size := Find(summary, file).value.sizeMib;
                        (r.value.GiB? <==> size >= 1024.0)
                        && (r.value.GiB? ==> r.value.gib * 1024.0 == size)
                        && (r.value.MiB? ==> r.value.mib == size)
  {
    match Find(summary, file)
    case None => None
    case Some(stats) =>
      if stats.sizeMib >= 1024.0 then Some(GiB(stats.sizeMib / 1024.0)) else Some(MiB(stats.sizeMib))
  }

  /** The short labels of `size_label_simple`, in the order of its branches. */
  const SimpleLabels: seq<(string, string)> := [
    ("test10m.dat", "10MB"), ("test50m.dat", "50MB"), ("test100m.dat", "100MB"),
    ("test250m.dat", "250MB"), ("test500m.dat", "500MB"), ("test1g.dat", "1GB"),
    ("test2g.dat", "2GB"), ("test4g.dat", "4GB")]

  /** The label of the first branch whose name equals `file`, scanning from `i`. */
  function LabelFrom(file: string, i: nat): (r: Option<string>)
    requires i <= |SimpleLabels|
    ensures r.None? <==> forall j :: i <= j < |SimpleLabels| ==> SimpleLabels[j].0 != file
    ensures r.Some? ==> exists j :: i <= j < |SimpleLabels| && SimpleLabels[j] == (file, r.value)
    decreases |SimpleLabels| - i
  {
    if i == |SimpleLabels| then None
    else if SimpleLabels[i].0 == file then Some(SimpleLabels[i].1)
    else LabelFrom(file, i + 1)
  }

  /** `size_label_simple(file)`. */
  function SizeLabelSimple(file: string): string
  {
    LabelFrom(file, 0).GetOr(file)
  }

  /**
   * The eight standard names get their short label, which differs from the name; every
   * other name is returned unchanged. The standard names are exactly the sort table's.
   */
  lemma SizeLabelSimpleCases(file: string)
    ensures SizeLabelSimple(file) != file <==> file in FileSortOrder
    ensures file in FileSortOrder ==> exists j :: 0 <= j < |SimpleLabels| && SimpleLabels[j] == (file, SizeLabelSimple(file))
  {
    SimpleNames();
    match LabelFrom(file, 0)
    case Some(short) =>
      var j :| 0 <= j < |SimpleLabels| && SimpleLabels[j] == (file, short);
    case None =>
  }

  /** The names of the short-label branches are the keys of the sort table, and no label equals its name. */
  lemma SimpleNames()
    ensures forall f :: f in FileSortOrder <==> exists j :: 0 <= j < |SimpleLabels| && SimpleLabels[j].0 == f
    ensures forall j :: 0 <= j < |SimpleLabels| ==> SimpleLabels[j].0 != SimpleLabels[j].1
  {
    var names := set j | 0 <= j < |SimpleLabels| :: SimpleLabels[j].0;
    assert names == FileSortOrder.Keys by {
      assert names == {SimpleLabels[0].0, SimpleLabels[1].0, SimpleLabels[2].0, SimpleLabels[3].0,
                        SimpleLabels[4].0, SimpleLabels[5].0, SimpleLabels[6].0, SimpleLabels[7].0};
    }
    forall j | 0 <= j < |SimpleLabels| ensures SimpleLabels[j].0 != SimpleLabels[j].1 {
      assert |SimpleLabels[j].0| > |SimpleLabels[j].1|;
    }
  }

  // ------------------------------------------------------------------ load_data

  /** One CSV row, its cells already converted by `int(...)` and `float(...)`. */
  datatype BenchRow = BenchRow(run: int, file: string, sizeBytes: int, durationMs: real, throughput: real)

  const RequiredColumns: set<string> := {"run", "file", "size_bytes", "duration_ms", "throughput_mib_per_s"}

  /** Why `load_data` raised. */
  datatype LoadError =
    | MissingColumns(columns: set<string>)    // ValueError naming the missing columns
    | BadFileName(file: string, failure: KeyFailure)

  /** `set(reader.fieldnames or [])`. */
  function Columns(fieldnames: Option<seq<string>>): set<string>
  {
    match fieldnames
    case None => {}
    case Some(names) => set n | n in names
  }

  /** Python's `<` on keys, where `inf` is above every finite float and not below itself. */
  predicate KeyBelow(a: SortKey, b: SortKey)
  {
    match (a, b)
    case (Finite(x), Finite(y)) => x < y
    case (Finite(_), Infinity) => true
    case (Infinity, _) => false
  }

  /**
   * The ordering below is stated for any key function on file names, so that the
   * sort's proofs never look inside `sort_key`; `LoadData` uses it with `SortKeyOf`.
   */
  type KeyFn = string -> Result<SortKey, KeyFailure>

  /** The first component of a row's sort tuple; only read for rows whose key computes. */
  function RowKey(key: KeyFn, r: BenchRow): SortKey
  {
    match key(r.file)
    case Ok(k) => k
    case Err(_) => Infinity
  }

  /** Tuple order on `(key(file), run)`. */
  predicate RowLe(key: KeyFn, a: BenchRow, b: BenchRow)
  {
    KeyBelow(RowKey(key, a), RowKey(key, b)) || (RowKey(key, a) == RowKey(key, b) && a.run <= b.run)
  }

  predicate SortedRows(key: KeyFn, s: seq<BenchRow>)
  {
    forall i, j :: 0 <= i < j < |s| ==> RowLe(key, s[i], s[j])
  }

  lemma RowLeTotal(key: KeyFn, a: BenchRow, b: BenchRow)
    ensures RowLe(key, a, b) || RowLe(key, b, a)
  {
  }

  lemma RowLeTransitive(key: KeyFn, a: BenchRow, b: BenchRow, c: BenchRow)
    requires RowLe(key, a, b) && RowLe(key, b, c)
    ensures RowLe(key, a, c)
  {
  }

  /** Insertion of `x` after every row not above it, so rows with equal keys keep their order. */
  function InsertRow(key: KeyFn, x: BenchRow, s: seq<BenchRow>): (r: seq<BenchRow>)
    requires SortedRows(key, s)
    ensures SortedRows(key, r)
    ensures multiset(r) == multiset(s) + multiset{x}
  {
    if s == [] then [x]
    else
      var last := s[|s| - 1];
      if RowLe(key, last, x) then
        forall i | 0 <= i < |s| - 1 ensures RowLe(key, s[i], x) {
          RowLeTransitive(key, s[i], last, x);
        }
        AppendSorted(key, s, x);
        s + [x]
      else
        var init := s[..|s| - 1];
        assert s == init + [last];
        var r' := InsertRow(key, x, init);
        RowLeTotal(key, last, x);
        RowsBelow(key, r', init, x, last);
        AppendSorted(key, r', last);
        r' + [last]
  }

  /** A row not below any row of a sorted sequence can follow it. */
  lemma AppendSorted(key: KeyFn, s: seq<BenchRow>, x: BenchRow)
    requires SortedRows(key, s) && forall i :: 0 <= i < |s| ==> RowLe(key, s[i], x)
    ensures SortedRows(key, s + [x])
  {
  }

  /** When `x` and every row of `init` are not above `last`, neither is any row of `init` with `x` added. */
  lemma RowsBelow(key: KeyFn, r: seq<BenchRow>, init: seq<BenchRow>, x: BenchRow, last: BenchRow)
    requires multiset(r) == multiset(init) + multiset{x}
    requires SortedRows(key, init + [last]) && RowLe(key, x, last)
    ensures forall i :: 0 <= i < |r| ==> RowLe(key, r[i], last)
  {
    var s := init + [last];
    forall i | 0 <= i < |r| ensures RowLe(key, r[i], last) {
      assert r[i] in multiset(r);
      if r[i] != x {
        assert r[i] in multiset(init);
        var j :| 0 <= j < |init| && init[j] == r[i];
        assert s[j] == r[i] && s[|init|] == last;
      }
    }
  }

  /** `rows.sort(key=lambda r: (sort_key(r.file), r.run))`, as a stable insertion sort. */
  function SortRows(key: KeyFn, s: seq<BenchRow>): (r: seq<BenchRow>)
    ensures SortedRows(key, r)
    ensures multiset(r) == multiset(s)
  {
    if s == [] then []
    else
      assert s == s[..|s| - 1] + [s[|s| - 1]];
      InsertRow(key, s[|s| - 1], SortRows(key, s[..|s| - 1]))
  }

  /** Rows compare equal under the sort: the same key and the same run. */
  predicate Tied(key: KeyFn, a: BenchRow, b: BenchRow)
  {
    RowKey(key, a) == RowKey(key, b) && a.run == b.run
  }

  /** The rows of `s` that tie with `y`, in the order of `s`. */
  function TiesWith(key: KeyFn, s: seq<BenchRow>, y: BenchRow): seq<BenchRow>
  {
    if s == [] then []
    else TiesWith(key, s[..|s| - 1], y) + (if Tied(key, s[|s| - 1], y) then [s[|s| - 1]] else [])
  }

  lemma TiesWithAppend(key: KeyFn, s: seq<BenchRow>, x: BenchRow, y: BenchRow)
    ensures TiesWith(key, s + [x], y) == TiesWith(key, s, y) + (if Tied(key, x, y) then [x] else [])
  {
    assert (s + [x])[..|s|] == s;
  }

  /** `x` goes after every row it ties with: among those rows, it comes last. */
  lemma {:induction false} InsertRowStable(key: KeyFn, x: BenchRow, s: seq<BenchRow>, y: BenchRow)
    requires SortedRows(key, s)
    ensures TiesWith(key, InsertRow(key, x, s), y) == TiesWith(key, s, y) + (if Tied(key, x, y) then [x] else [])
  {
    if s != [] {
      var last := s[|s| - 1];
      var init := s[..|s| - 1];
      assert s == init + [last];
      TiesWithAppend(key, init, last, y);
      if RowLe(key, last, x) {
        assert InsertRow(key, x, s) == s + [x];
        TiesWithAppend(key, s, x, y);
      } else {
        assert InsertRow(key, x, s) == InsertRow(key, x, init) + [last];
        InsertRowStable(key, x, init, y);
        TiesWithAppend(key, InsertRow(key, x, init), last, y);
        assert !(Tied(key, x, y) && Tied(key, last, y));
      }
    }
  }

  /** The sort is stable: the rows that tie with any row keep their input order. */
  lemma {:induction false} SortRowsStable(key: KeyFn, s: seq<BenchRow>, y: BenchRow)
    ensures TiesWith(key, SortRows(key, s), y) == TiesWith(key, s, y)
  {
    if s != [] {
      var init, x := s[..|s| - 1], s[|s| - 1];
      SortRowsStable(key, init, y);
      assert SortRows(key, s) == InsertRow(key, x, SortRows(key, init));
      InsertRowStable(key, x, SortRows(key, init), y);
    }
  }

  /** Every row's name has a key. */
  ghost predicate AllKeyed(key: KeyFn, rows: seq<BenchRow>)
  {
    forall i :: 0 <= i < |rows| ==> key(rows[i].file).Ok?
  }

  /** The first row whose name has no key, if any. */
  function FirstBadRow(key: KeyFn, records: seq<BenchRow>): (r: Option<nat>)
    ensures r.None? <==> AllKeyed(key, records)
    ensures r.Some? ==> r.value < |records| && key(records[r.value].file).Err?
                        && forall i :: 0 <= i < r.value ==> key(records[i].file).Ok?
  {
    if records == [] then None
    else if key(records[0].file).Err? then Some(0)
    else match FirstBadRow(key, records[1..])
      case None => None
      case Some(i) => Some(i + 1)
  }

  /** A permutation of rows that all have keys has keys too. */
  lemma KeyedPermutation(key: KeyFn, s: seq<BenchRow>, t: seq<BenchRow>)
    requires multiset(s) == multiset(t) && AllKeyed(key, t)
    ensures AllKeyed(key, s)
  {
    forall i | 0 <= i < |s| ensures key(s[i].file).Ok? {
      assert s[i] in multiset(t);
      var j :| 0 <= j < |t| && t[j] == s[i];
    }
  }

  lemma FirstBadAt(key: KeyFn, records: seq<BenchRow>, i: nat)
    requires i < |records| && key(records[i].file).Err?
    requires forall j :: 0 <= j < i ==> key(records[j].file).Ok?
    ensures FirstBadRow(key, records) == Some(i)
  {
    var r := FirstBadRow(key, records);
    assert r.Some?;
    assert !(r.value < i) && !(i < r.value);
  }

  /**
   * The body of `load_data` after the CSV has been read, for a key function `key`: the
   * rows in file order, and the reader's field names (None when the file is empty). A
   * missing column is reported before any row is read; otherwise every key is computed in
   * row order before the sort, so the first row whose name has no key decides the error;
   * otherwise the rows come back ordered by `(key(file), run)`, as a permutation of the input.
   */
  method LoadRows(fieldnames: Option<seq<string>>, records: seq<BenchRow>, key: KeyFn)
    returns (r: Result<seq<BenchRow>, LoadError>)
    ensures !(RequiredColumns <= Columns(fieldnames)) ==> r == Err(MissingColumns(RequiredColumns - Columns(fieldnames)))
    ensures RequiredColumns <= Columns(fieldnames) && FirstBadRow(key, records).Some? ==>
              var i := FirstBadRow(key, records).value;
              r == Err(BadFileName(records[i].file, key(records[i].file).error))
    ensures RequiredColumns <= Columns(fieldnames) && FirstBadRow(key, records).None? ==>
              r.Ok? && AllKeyed(key, r.value) && SortedRows(key, r.value) && multiset(r.value) == multiset(records)
  {
    var missing := RequiredColumns - Columns(fieldnames);
    if missing != {} {
      return Err(MissingColumns(missing));
    }
    assert RequiredColumns <= Columns(fieldnames) by {
      forall c | c in RequiredColumns ensures c in Columns(fieldnames) {
        assert c !in missing;
      }
    }
    var rows: seq<BenchRow> := [];
    var i := 0;
    while i < |records|
      invariant 0 <= i <= |records| && rows == records[..i]
    {
      rows := rows + [records[i]];
      i := i + 1;
    }
    assert rows == records;
    i := 0;
    while i < |rows|
      invariant 0 <= i <= |rows| && forall j :: 0 <= j < i ==> key(rows[j].file).Ok?
    {
      var k := key(rows[i].file);
      if k.Err? {
        FirstBadAt(key, records, i);
        assert FirstBadRow(key, records) == Some(i);
        return Err(BadFileName(records[i].file, k.error));
      }
      i := i + 1;
    }
    var sorted := SortRows(key, rows);
    KeyedPermutation(key, sorted, rows);
    r := Ok(sorted);
  }

  /** `load_data` with the `sort_key` of this script. */
  method LoadData(fieldnames: Option<seq<string>>, records: seq<BenchRow>) returns (r: Result<seq<BenchRow>, LoadError>)
    ensures !(RequiredColumns <= Columns(fieldnames)) ==> r == Err(MissingColumns(RequiredColumns - Columns(fieldnames)))
    ensures RequiredColumns <= Columns(fieldnames) && FirstBadRow(SortKeyOf, records).Some? ==>
              var i := FirstBadRow(SortKeyOf, records).value;
              r == Err(BadFileName(records[i].file, SortKeyOf(records[i].file).error))
    ensures RequiredColumns <= Columns(fieldnames) && FirstBadRow(SortKeyOf, records).None? ==>
              r.Ok? && AllKeyed(SortKeyOf, r.value) && SortedRows(SortKeyOf, r.value)
              && multiset(r.value) == multiset(records)
  {
    r := LoadRows(fieldnames, records, SortKeyOf);
  }

  // ------------------------------------------------------------------ summarise

  /**
   * The summary dictionary of one file; each `*Std` is carried as the population variance
   * whose square root `pstdev` takes.
   */
  datatype FileStats = FileStats(runCount: nat, sizeBytes: int, sizeMib: real,
                                 durationMean: real, durationVariance: real, durationMin: real, durationMax: real,
                                 throughputMean: real, throughputVariance: real, throughputMin: real,
                                 throughputP50: real, throughputP95: real, throughputMax: real)

  function Durations(items: seq<BenchRow>): (ds: seq<real>)
    ensures |ds| == |items| && forall i :: 0 <= i < |items| ==> ds[i] == items[i].durationMs
  {
    seq(|items|, i requires 0 <= i < |items| => items[i].durationMs)
  }

  function Throughputs(items: seq<BenchRow>): (ts: seq<real>)
    ensures |ts| == |items| && forall i :: 0 <= i < |items| ==> ts[i] == items[i].throughput
  {
    seq(|items|, i requires 0 <= i < |items| => items[i].throughput)
  }

  /** The dictionary `summarise` stores for one file's rows. */
  function StatsOf(items: seq<BenchRow>): FileStats
    requires items != []
  {
    var ds, ts := Durations(items), Throughputs(items);
    FileStats(|items|, items[0].sizeBytes, items[0].sizeBytes as real / (1024 * 1024) as real,
              Mean(ds), if |ds| > 1 then PopulationVariance(ds) else 0.0, SeqMin(ds), SeqMax(ds),
              Mean(ts), if |ts| > 1 then PopulationVariance(ts) else 0.0, SeqMin(ts),
              Percentile(ts, 0.5).value, Percentile(ts, 0.95).value, SeqMax(ts))
  }

  /**
   * One file's statistics: its row count, the size of its first row in bytes and MiB,
   * spreads that vanish for a single run, and min <= mean <= max and
   * min <= p50 <= p95 <= max for the throughputs.
   */
  lemma StatsFacts(items: seq<BenchRow>)
    requires items != []
    ensures var st := StatsOf(items);
            st.runCount == |items| && st.sizeBytes == items[0].sizeBytes
            && st.sizeMib * 1048576.0 == items[0].sizeBytes as real
            && (|items| <= 1 ==> st.durationVariance == 0.0 && st.throughputVariance == 0.0)
            && st.durationVariance >= 0.0 && st.throughputVariance >= 0.0
            && st.durationMin <= st.durationMean <= st.durationMax
            && st.throughputMin <= st.throughputMean <= st.throughputMax
            && st.throughputMin <= st.throughputP50 <= st.throughputP95 <= st.throughputMax
            && st.throughputP50 == Median(SortReals(Throughputs(items)))
  {
    var ds, ts := Durations(items), Throughputs(items);
    MeanWithin(ds);
    MeanWithin(ts);
    PercentileWithin(ts, 0.5);
    PercentileWithin(ts, 0.95);
    PercentileMonotone(ts, 0.5, 0.95);
    PercentileMedian(ts);
  }

  function FileOf(r: BenchRow): string { r.file }

  function AppendRow(items: seq<BenchRow>, r: BenchRow): seq<BenchRow> { items + [r] }

  /** Appending each row in turn rebuilds the rows. */
  lemma {:induction false} FoldAppendRows(xs: seq<BenchRow>)
    ensures FoldSeq(xs, [], AppendRow) == xs
  {
    if xs != [] {
      FoldAppendRows(xs[..|xs| - 1]);
      assert xs == xs[..|xs| - 1] + [xs[|xs| - 1]];
    }
  }

  /** The `defaultdict(list)` of rows per file. */
  function Grouped(rows: seq<BenchRow>): seq<Entry<string, seq<BenchRow>>>
  {
    GroupInto(rows, FileOf, [], AppendRow)
  }

  /** Each file's group is the file's rows in input order, and so is never empty. */
  lemma GroupedFind(rows: seq<BenchRow>, file: string)
    ensures Find(Grouped(rows), file) == if Filter(rows, FileOf, file) == [] then None else Some(Filter(rows, FileOf, file))
  {
    GroupFind(rows, FileOf, [], AppendRow, file);
    FoldAppendRows(Filter(rows, FileOf, file));
  }

  ghost predicate NonEmptyGroups(es: seq<Entry<string, seq<BenchRow>>>)
  {
    forall i :: 0 <= i < |es| ==> es[i].val != []
  }

  lemma GroupedNonEmpty(rows: seq<BenchRow>)
    ensures NonEmptyGroups(Grouped(rows))
  {
    var g := Grouped(rows);
    GroupKeys(rows, FileOf, [], AppendRow);
    forall i | 0 <= i < |g| ensures g[i].val != [] {
      FindDistinct(g, i);
      GroupedFind(rows, g[i].key);
    }
  }

  /** One statistics entry per group, keys and order kept. */
  function SummaryEntries(es: seq<Entry<string, seq<BenchRow>>>): (s: seq<Entry<string, FileStats>>)
    requires NonEmptyGroups(es)
    ensures |s| == |es| && forall i :: 0 <= i < |es| ==> s[i] == Entry(es[i].key, StatsOf(es[i].val))
  {
    if es == [] then []
    else
      assert NonEmptyGroups(es[1..]) by {
        forall i | 0 <= i < |es[1..]| ensures es[1..][i].val != [] { assert es[1..][i] == es[i + 1]; }
      }
      [Entry(es[0].key, StatsOf(es[0].val))] + SummaryEntries(es[1..])
  }

  /** The grouping loop of `summarise`: one list of rows per file, in first-seen order. */
  method GroupRows(rows: seq<BenchRow>) returns (grouped: seq<Entry<string, seq<BenchRow>>>)
    ensures grouped == Grouped(rows)
  {
    grouped := [];
    var i := 0;
    while i < |rows|
      invariant 0 <= i <= |rows| && grouped == Grouped(rows[..i])
    {
      assert rows[..i + 1][..i] == rows[..i];
      grouped := Upsert(grouped, rows[i].file, [], AppendRow, rows[i]);
      i := i + 1;
    }
    assert rows[..i] == rows;
  }

  /** The statistics loop of `summarise`: one entry per group, keys and order kept. */
  method SummariseGroups(grouped: seq<Entry<string, seq<BenchRow>>>) returns (summary: seq<Entry<string, FileStats>>)
    requires NonEmptyGroups(grouped)
    ensures summary == SummaryEntries(grouped)
  {
    summary := MapGroups(grouped, StatsOf);
    SameEntries(summary, SummaryEntries(grouped));
  }

  /** A loop that stores `f(items)` under each group's key, in order. */
  method MapGroups<B>(grouped: seq<Entry<string, seq<BenchRow>>>, f: seq<BenchRow> --> B)
    returns (out: seq<Entry<string, B>>)
    requires forall i :: 0 <= i < |grouped| ==> f.requires(grouped[i].val)
    ensures |out| == |grouped| && forall i :: 0 <= i < |grouped| ==> out[i] == Entry(grouped[i].key, f(grouped[i].val))
  {
    out := [];
    var i := 0;
    while i < |grouped|
      invariant 0 <= i <= |grouped| && |out| == i
      invariant forall j :: 0 <= j < i ==> out[j] == Entry(grouped[j].key, f(grouped[j].val))
    {
      out := out + [Entry(grouped[i].key, f(grouped[i].val))];
      i := i + 1;
    }
  }

  lemma SameEntries<A>(s: seq<A>, t: seq<A>)
    requires |s| == |t| && forall j :: 0 <= j < |s| ==> s[j] == t[j]
    ensures s == t
  {
  }

  /** `summarise(rows)`: group the rows by file, then one statistics entry per group in first-seen order. */
  method Summarise(rows: seq<BenchRow>) returns (summary: seq<Entry<string, FileStats>>)
    ensures NonEmptyGroups(Grouped(rows)) && summary == SummaryEntries(Grouped(rows))
  {
    var grouped := GroupRows(rows);
    GroupedNonEmpty(rows);
    summary := SummariseGroups(grouped);
  }

  /** The summary has one entry per distinct file, keys in the groups' first-seen order. */
  lemma SummaryKeys(rows: seq<BenchRow>, file: string)
    requires NonEmptyGroups(Grouped(rows))
    ensures DistinctKeys(SummaryEntries(Grouped(rows)))
    ensures Keys(SummaryEntries(Grouped(rows))) == Keys(Grouped(rows))
    ensures file in Keys(SummaryEntries(Grouped(rows))) <==> exists r :: r in rows && r.file == file
  {
    var g := Grouped(rows);
    var s := SummaryEntries(g);
    GroupKeys(rows, FileOf, [], AppendRow);
    FilterMembers(rows, FileOf, file);
    assert Keys(s) == Keys(g);
    if Filter(rows, FileOf, file) != [] {
      assert Filter(rows, FileOf, file)[0] in Filter(rows, FileOf, file);
    }
  }

  /** The entry of a file holds the statistics of exactly that file's rows, in input order. */
  lemma SummaryFind(rows: seq<BenchRow>, file: string)
    requires NonEmptyGroups(Grouped(rows))
    ensures Find(SummaryEntries(Grouped(rows)), file) ==
              if Filter(rows, FileOf, file) == [] then None else Some(StatsOf(Filter(rows, FileOf, file)))
  {
    FindMapped(Grouped(rows), file);
    GroupedFind(rows, file);
  }

  lemma FindMapped(es: seq<Entry<string, seq<BenchRow>>>, k: string)
    requires NonEmptyGroups(es)
    ensures Find(SummaryEntries(es), k).None? <==> Find(es, k).None?
    ensures Find(es, k).Some? ==> Find(es, k).value != [] && Find(SummaryEntries(es), k) == Some(StatsOf(Find(es, k).value))
  {
    FindMap(es, SummaryEntries(es), StatsOf, k);
  }
}
