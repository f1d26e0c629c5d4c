/**
 * `analyze_results.py`: the size and throughput formatters, and the analysis of a saved run:
 * the results grouped by scenario and then by file, a report per file computed from its
 * successful iterations only, and the overall success and failure counts.
 */
module AnalyzeResults {
  import opened Outcomes
  import opened Grouping
  import opened Samples
  import opened ResultRecords
  import PyRunner
  import GoRunner

  // ---------------------------------------------------------------------------------------------
  // format_size and format_throughput

  const SizeUnits: seq<string> := ["B", "KB", "MB", "GB", "TB"]

  /** 1024 to the power `n`. */
  function Pow1024(n: nat): (p: real)
    ensures p >= 1.0
  {
    if n == 0 then 1.0 else 1024.0 * Pow1024(n - 1)
  }

  /** The number `format_size` prints (with two decimals) and the unit it prints after it. */
  datatype SizeText = SizeText(value: real, unit: string)

  /** The position of a unit in B, KB, MB, GB, TB, PB. */
  function UnitIndex(unit: string): nat
  {
    if unit == "B" then 0 else if unit == "KB" then 1 else if unit == "MB" then 2
    else if unit == "GB" then 3 else if unit == "TB" then 4 else 5
  }

  /**
   * `format_size(bytes)`: divide by 1024 until the value is below 1024, walking through the
   * units B to TB, and print whatever is left in PB after the fifth division.
   */
  method FormatSize(bytes: real) returns (r: SizeText)
    ensures r.unit in SizeUnits || r.unit == "PB"
    ensures r.value == bytes / Pow1024(UnitIndex(r.unit))
    ensures r.unit != "PB" ==> r.value < 1024.0
    ensures forall j :: 0 <= j < UnitIndex(r.unit) ==> bytes / Pow1024(j) >= 1024.0
  {
    var value := bytes;
    var i := 0;
    while i < |SizeUnits|
      invariant 0 <= i <= |SizeUnits|
      invariant value == bytes / Pow1024(i)
      invariant forall j :: 0 <= j < i ==> bytes / Pow1024(j) >= 1024.0
    {
      if value < 1024.0 {
        return SizeText(value, SizeUnits[i]);
      }
      DivideOnce(bytes, i);
      value := value / 1024.0;
      i := i + 1;
    }
    r := SizeText(value, "PB");
  }

  lemma DivideOnce(bytes: real, i: nat)
    ensures bytes / Pow1024(i) / 1024.0 == bytes / Pow1024(i + 1)
  {
    var p := Pow1024(i);
    assert Pow1024(i + 1) == 1024.0 * p;
    var q := bytes / p;
    assert q * p == bytes;
    assert (q / 1024.0) * (1024.0 * p) == bytes;
  }

  /** Past the first unit, the printed value of a non-negative size is at least 1. */
  lemma FormatSizeAtLeastOne(bytes: real, r: SizeText)
    requires r.value == bytes / Pow1024(UnitIndex(r.unit)) && UnitIndex(r.unit) > 0
    requires forall j :: 0 <= j < UnitIndex(r.unit) ==> bytes / Pow1024(j) >= 1024.0
    ensures r.value >= 1.0
  {
    var i := UnitIndex(r.unit) - 1;
    DivideOnce(bytes, i);
    assert bytes / Pow1024(i) >= 1024.0;
  }

  /** `format_throughput(bytes_per_sec)`: megabits per second. */
  function FormatThroughput(bytesPerSec: real): (mbps: real)
    ensures mbps * 1000000.0 == bytesPerSec * 8.0
  {
    (bytesPerSec * 8.0) / 1000000.0
  }

  /** The conversion to megabits per second is zero at zero, preserves order and adds up. */
  lemma FormatThroughputLinear(a: real, b: real)
    ensures FormatThroughput(0.0) == 0.0
    ensures a <= b ==> FormatThroughput(a) <= FormatThroughput(b)
    ensures FormatThroughput(a + b) == FormatThroughput(a) + FormatThroughput(b)
  {
  }

  // ---------------------------------------------------------------------------------------------
  // Grouping by scenario, then by file

  /** `(scenario, scenario_name, bandwidth)`; here `bandwidth` is read with `result['bandwidth']`. */
  datatype ScenarioKey = ScenarioKey(id: string, name: string, bandwidth: Option<string>)

  /** `(file, fileSize)`. */
  datatype FileKey = FileKey(file: string, fileSize: int)

  /** A result with the two keys it is grouped under. */
  datatype Keyed = Keyed(scenario: ScenarioKey, fileKey: FileKey, record: Record)

  /** The keys the grouping loop reads, in order: `scenario`, `scenario_name`, `bandwidth`, `file`, `fileSize`. */
  function GroupView(r: Record): (v: Result<Keyed, KeyError>)
    ensures v.Ok? <==> r.scenario.Some? && r.scenarioName.Some? && r.bandwidth.Some? && r.file.Some? && r.fileSize.Some?
    ensures v.Ok? ==> v.value.record == r && v.value.scenario.bandwidth == r.bandwidth.value
                      && v.value.fileKey == FileKey(r.file.value, r.fileSize.value)
  {
    if r.scenario.None? then Err(KeyError("scenario"))
    else if r.scenarioName.None? then Err(KeyError("scenario_name"))
    else if r.bandwidth.None? then Err(KeyError("bandwidth"))
    else if r.file.None? then Err(KeyError("file"))
    else if r.fileSize.None? then Err(KeyError("fileSize"))
    else Ok(Keyed(ScenarioKey(r.scenario.value, r.scenarioName.value, r.bandwidth.value),
                  FileKey(r.file.value, r.fileSize.value), r))
  }

  function ScenarioOf(k: Keyed): ScenarioKey { k.scenario }
  function FileKeyOf(k: Keyed): FileKey { k.fileKey }
  function RecordOf(k: Keyed): Record { k.record }

  function AppendRecord(rs: seq<Record>, k: Keyed): seq<Record> { rs + [k.record] }

  /** `scenarios[scenario_key][file_key].append(result)`. */
  function FileStep(files: seq<Entry<FileKey, seq<Record>>>, k: Keyed): seq<Entry<FileKey, seq<Record>>>
  {
    Upsert(files, k.fileKey, [], AppendRecord, k)
  }

  type Groups = seq<Entry<ScenarioKey, seq<Entry<FileKey, seq<Record>>>>>

  /** The nested dictionary `scenarios` after the grouping loop. */
  function ScenarioGroups(items: seq<Keyed>): Groups
  {
    GroupInto(items, ScenarioOf, [], FileStep)
  }

  /** The records of some keyed results, in order. */
  function Records(items: seq<Keyed>): (rs: seq<Record>)
    ensures |rs| == |items| && forall i :: 0 <= i < |items| ==> rs[i] == items[i].record
  {
    if items == [] then [] else Records(items[..|items| - 1]) + [items[|items| - 1].record]
  }

  lemma {:induction false} FoldAppendRecords(items: seq<Keyed>)
    ensures FoldSeq(items, [], AppendRecord) == Records(items)
  {
    if items != [] {
      FoldAppendRecords(items[..|items| - 1]);
    }
  }

  lemma {:induction false} FileStepFold(items: seq<Keyed>)
    ensures FoldSeq(items, [], FileStep) == GroupInto(items, FileKeyOf, [], AppendRecord)
  {
    if items != [] {
      FileStepFold(items[..|items| - 1]);
    }
  }

  /** The results of scenario `k` and file `f`, in input order. */
  function Cell(items: seq<Keyed>, k: ScenarioKey, f: FileKey): seq<Keyed>
  {
    Filter(Filter(items, ScenarioOf, k), FileKeyOf, f)
  }

  /**
   * Every result is appended to exactly the group of its scenario key and file key: the list
   * `scenarios[k][f]` is exactly the results with those keys, in input order, and it exists
   * exactly when there is such a result.
   */
  lemma ScenarioGroupFind(items: seq<Keyed>, k: ScenarioKey, f: FileKey)
    ensures Find(ScenarioGroups(items), k).Some? <==> Filter(items, ScenarioOf, k) != []
    ensures Find(ScenarioGroups(items), k).Some? ==>
              Find(ScenarioGroups(items), k).value == GroupInto(Filter(items, ScenarioOf, k), FileKeyOf, [], AppendRecord)
              && Find(Find(ScenarioGroups(items), k).value, f) ==
                   if Cell(items, k, f) == [] then None else Some(Records(Cell(items, k, f)))
  {
    GroupFind(items, ScenarioOf, [], FileStep, k);
    FileStepFold(Filter(items, ScenarioOf, k));
    GroupFind(Filter(items, ScenarioOf, k), FileKeyOf, [], AppendRecord, f);
    FoldAppendRecords(Cell(items, k, f));
  }

  /** The grouping loop of `analyze_results`. */
  method GroupScenarios(results: seq<Record>) returns (r: Result<Groups, KeyError>)
    ensures r == match ReadAll(results, GroupView)
                 case Err(e) => Err(e)
                 case Ok(items) => Ok(ScenarioGroups(items))
  {
    var scenarios: Groups := [];
    ghost var items: seq<Keyed> := [];
    var i := 0;
    while i < |results|
      invariant 0 <= i <= |results|
      invariant ReadAll(results[..i], GroupView) == Ok(items) && scenarios == ScenarioGroups(items)
    {
      ReadAllSnoc(results, i, GroupView);
      var v := GroupView(results[i]);
      if v.Err? {
        ReadAllStops(results, i + 1, GroupView);
        return Err(v.error);
      }
      assert (items + [v.value])[..|items|] == items;
      scenarios := Upsert(scenarios, v.value.scenario, [], FileStep, v.value);
      items := items + [v.value];
      i := i + 1;
    }
    assert results[..i] == results;
    r := Ok(scenarios);
  }

  // ---------------------------------------------------------------------------------------------
  // The report of one file

  /** What the iteration listing reads of a successful result. */
  datatype Measure = Measure(uploadTime: real, downloadTime: real, uploadThroughput: real,
                             downloadThroughput: real, totalTime: real, genTime: real)

  /**
   * The keys the iteration listing reads, in order: `success`, and for a success `ipfs_hash`,
   * `random_data_gen_time`, `upload_time`, `upload_throughput`, `download_time`,
   * `download_throughput` and `total_time`. A failure only reads `error` with a default.
   */
  function IterationView(r: Record): (v: Result<Option<Measure>, KeyError>)
    ensures v.Ok? <==> r.success.Some? && (r.success.value ==>
                         r.ipfsHash.Some? && r.randomDataGenTime.Some? && r.uploadTime.Some? && r.uploadThroughput.Some?
                         && r.downloadTime.Some? && r.downloadThroughput.Some? && r.totalTime.Some?)
    ensures v.Ok? ==> (v.value.Some? <==> r.success.value)
  {
    if r.success.None? then Err(KeyError("success"))
    else if !r.success.value then Ok(None)
    else if r.ipfsHash.None? then Err(KeyError("ipfs_hash"))
    else if r.randomDataGenTime.None? then Err(KeyError("random_data_gen_time"))
    else if r.uploadTime.None? then Err(KeyError("upload_time"))
    else if r.uploadThroughput.None? then Err(KeyError("upload_throughput"))
    else if r.downloadTime.None? then Err(KeyError("download_time"))
    else if r.downloadThroughput.None? then Err(KeyError("download_throughput"))
    else if r.totalTime.None? then Err(KeyError("total_time"))
    else Ok(Some(Measure(r.uploadTime.value, r.downloadTime.value, r.uploadThroughput.value,
                         r.downloadThroughput.value, r.totalTime.value, r.randomDataGenTime.value)))
  }

  /** Mean, median, minimum, maximum, and the sample variance only for more than one value. */
  datatype TimeSummary = TimeSummary(mean: real, median: real, min: real, max: real, variance: Option<real>)

  /** Mean, median, minimum and maximum throughput, in megabits per second. */
  datatype RateSummary = RateSummary(mean: real, median: real, min: real, max: real)

  function TimeSummaryOf(xs: seq<real>): TimeSummary
    requires |xs| > 0
  {
    TimeSummary(Mean(xs), Median(SortReals(xs)), SeqMin(xs), SeqMax(xs),
                if |xs| > 1 then Some(SampleVariance(xs)) else None)
  }

  function RateSummaryOf(xs: seq<real>): RateSummary
    requires |xs| > 0
  {
    RateSummary(FormatThroughput(Mean(xs)), FormatThroughput(Median(SortReals(xs))),
                FormatThroughput(SeqMin(xs)), FormatThroughput(SeqMax(xs)))
  }

  /** The mean and the median lie between the extremes; the spread is shown only for two or more values. */
  lemma TimeSummaryFacts(xs: seq<real>)
    requires |xs| > 0
    ensures TimeSummaryOf(xs).min <= TimeSummaryOf(xs).mean <= TimeSummaryOf(xs).max
    ensures TimeSummaryOf(xs).min <= TimeSummaryOf(xs).median <= TimeSummaryOf(xs).max
    ensures TimeSummaryOf(xs).variance.Some? <==> |xs| > 1
    ensures TimeSummaryOf(xs).variance.Some? ==> TimeSummaryOf(xs).variance.value >= 0.0
  {
    MeanWithin(xs);
    var sorted := SortReals(xs);
    MedianWithin(sorted);
    SortedEnds(xs, sorted);
  }

  /** The same order holds for the throughputs after conversion to megabits per second. */
  lemma RateSummaryFacts(xs: seq<real>)
    requires |xs| > 0
    ensures RateSummaryOf(xs).min <= RateSummaryOf(xs).mean <= RateSummaryOf(xs).max
    ensures RateSummaryOf(xs).min <= RateSummaryOf(xs).median <= RateSummaryOf(xs).max
  {
    TimeSummaryFacts(xs);
    FormatThroughputLinear(SeqMin(xs), Mean(xs));
    FormatThroughputLinear(Mean(xs), SeqMax(xs));
    FormatThroughputLinear(SeqMin(xs), Median(SortReals(xs)));
    FormatThroughputLinear(Median(SortReals(xs)), SeqMax(xs));
  }

  /** The statistical summary of a file's successful iterations. */
  datatype FileStats = FileStats(upload: TimeSummary, download: TimeSummary,
                                 uploadRate: RateSummary, downloadRate: RateSummary,
                                 totalMean: real, totalMedian: real, genMean: real, genMedian: real)

  /** `len(successful)`, `len(iterations)`, and the summary when there is a success. */
  datatype FileReport = FileReport(successes: nat, iterations: nat, stats: Option<FileStats>)

  function UploadTimeOf(m: Measure): real { m.uploadTime }
  function DownloadTimeOf(m: Measure): real { m.downloadTime }
  function UploadThroughputOf(m: Measure): real { m.uploadThroughput }
  function DownloadThroughputOf(m: Measure): real { m.downloadThroughput }
  function TotalTimeOf(m: Measure): real { m.totalTime }
  function GenTimeOf(m: Measure): real { m.genTime }

  function StatsOf(ms: seq<Measure>): FileStats
    requires |ms| > 0
  {
    FileStats(TimeSummaryOf(Column(ms, UploadTimeOf)), TimeSummaryOf(Column(ms, DownloadTimeOf)),
              RateSummaryOf(Column(ms, UploadThroughputOf)), RateSummaryOf(Column(ms, DownloadThroughputOf)),
              Mean(Column(ms, TotalTimeOf)), Median(SortReals(Column(ms, TotalTimeOf))),
              Mean(Column(ms, GenTimeOf)), Median(SortReals(Column(ms, GenTimeOf))))
  }

  function Identity(m: Option<Measure>): Option<Measure> { m }

  /**
   * The listing and the summary of one file: the KeyError of the first unreadable iteration, or
   * the counts and, when something succeeded, the statistics of exactly the successful iterations.
   */
  function FileReportOf(iterations: seq<Record>): Result<FileReport, KeyError>
  {
    match ReadAll(iterations, IterationView)
    case Err(e) => Err(e)
    case Ok(views) =>
      var successful := Collect(views, Identity);
      Ok(FileReport(|successful|, |iterations|, if successful == [] then None else Some(StatsOf(successful))))
  }

  /** The successful iterations of a readable file, in order. */
  function Successful(iterations: seq<Record>): seq<Measure>
    requires ReadAll(iterations, IterationView).Ok?
  {
    Collect(ReadAll(iterations, IterationView).value, Identity)
  }

  /**
   * A file's report exists exactly when every iteration can be read; it counts the iterations and
   * the successful ones, and has statistics exactly when one succeeded, computed from those alone.
   */
  lemma FileReportCounts(iterations: seq<Record>)
    ensures FileReportOf(iterations).Ok? <==> forall i :: 0 <= i < |iterations| ==> IterationView(iterations[i]).Ok?
    ensures FileReportOf(iterations).Ok? ==>
              && FileReportOf(iterations).value.iterations == |iterations|
              && FileReportOf(iterations).value.successes == |Successful(iterations)| <= |iterations|
              && (FileReportOf(iterations).value.stats.Some? <==> |Successful(iterations)| > 0)
              && (|Successful(iterations)| > 0 ==> FileReportOf(iterations).value.stats == Some(StatsOf(Successful(iterations))))
  {
    ReadAllFacts(iterations, IterationView);
    if ReadAll(iterations, IterationView).Ok? {
      CollectLength(ReadAll(iterations, IterationView).value, Identity);
    }
  }

  /** The statistics use successful iterations only: each measurement comes from an iteration whose `success` is true. */
  lemma SuccessfulOnly(iterations: seq<Record>, m: Measure)
    requires ReadAll(iterations, IterationView).Ok? && m in Successful(iterations)
    ensures exists i :: 0 <= i < |iterations| && iterations[i].success == Some(true) && IterationView(iterations[i]) == Ok(Some(m))
  {
    var views := ReadAll(iterations, IterationView).value;
    ReadAllFacts(iterations, IterationView);
    CollectMembers(views, Identity, m);
  }

  /** Conversely every successful iteration contributes its measurement. */
  lemma SuccessfulAll(iterations: seq<Record>, i: nat)
    requires ReadAll(iterations, IterationView).Ok? && i < |iterations| && iterations[i].success == Some(true)
    ensures IterationView(iterations[i]).Ok? && IterationView(iterations[i]).value.Some?
    ensures IterationView(iterations[i]).value.value in Successful(iterations)
  {
    var views := ReadAll(iterations, IterationView).value;
    ReadAllFacts(iterations, IterationView);
    assert Identity(views[i]) == IterationView(iterations[i]).value;
    CollectMembers(views, Identity, IterationView(iterations[i]).value.value);
  }

  // ---------------------------------------------------------------------------------------------
  // The per-scenario reports and the overall counts

  function FileEntryReport(e: Entry<FileKey, seq<Record>>): Result<Entry<FileKey, FileReport>, KeyError>
  {
    match FileReportOf(e.val)
    case Err(err) => Err(err)
    case Ok(rep) => Ok(Entry(e.key, rep))
  }

  function ScenarioEntryReport(e: Entry<ScenarioKey, seq<Entry<FileKey, seq<Record>>>>)
    : Result<Entry<ScenarioKey, seq<Entry<FileKey, FileReport>>>, KeyError>
  {
    match ReadAll(e.val, FileEntryReport)
    case Err(err) => Err(err)
    case Ok(files) => Ok(Entry(e.key, files))
  }

  /** The scenario loop and the file loop inside it, which stop at the first KeyError. */
  function ScenarioReports(groups: Groups): Result<seq<Entry<ScenarioKey, seq<Entry<FileKey, FileReport>>>>, KeyError>
  {
    ReadAll(groups, ScenarioEntryReport)
  }

  /** `total_tests`, `successful_tests` and `failed_tests`. */
  datatype Overall = Overall(total: nat, successful: nat, failed: nat)

  function SuccessView(r: Record): Result<bool, KeyError>
  {
    if r.success.None? then Err(KeyError("success")) else Ok(r.success.value)
  }

  function Kept(b: bool): Option<bool> { if b then Some(b) else None }

  /** The count comprehensions over all results. */
  function OverallOf(results: seq<Record>): (o: Result<Overall, KeyError>)
    ensures o.Ok? ==> o.value.total == |results| && o.value.successful <= o.value.total
                      && o.value.failed == o.value.total - o.value.successful
  {
    match ReadAll(results, SuccessView)
    case Err(e) => Err(e)
    case Ok(flags) =>
      CollectLength(flags, Kept);
      ReadAllFacts(results, SuccessView);
      var successful := |Collect(flags, Kept)|;
      Ok(Overall(|results|, successful, |results| - successful))
  }

  /** `successful_tests` counts exactly the successful results. */
  lemma OverallCounts(results: seq<Record>)
    ensures OverallOf(results).Ok? <==> forall i :: 0 <= i < |results| ==> results[i].success.Some?
    ensures OverallOf(results).Ok? ==>
              OverallOf(results).value.successful == |Collect(ReadAll(results, SuccessView).value, Kept)|
              && (OverallOf(results).value.successful == 0 <==> forall i :: 0 <= i < |results| ==> results[i].success == Some(false))
  {
    ReadAllFacts(results, SuccessView);
    if OverallOf(results).Ok? {
      var flags := ReadAll(results, SuccessView).value;
      if Collect(flags, Kept) == [] {
        forall i | 0 <= i < |results| ensures results[i].success == Some(false) {
          if flags[i] {
            CollectMembers(flags, Kept, true);
          }
        }
      } else {
        var y := Collect(flags, Kept)[0];
        CollectMembers(flags, Kept, y);
      }
    }
  }

  /** Division by zero in `successful_tests/total_tests*100`. */
  datatype ZeroDivisionError = ZeroDivisionError

  /** The two percentages as written: they divide by `total_tests` even when it is 0. */
  function PercentagesAsWritten(o: Overall): Result<(real, real), ZeroDivisionError>
  {
    if o.total == 0 then Err(ZeroDivisionError)
    else Ok(((o.successful as real) / (o.total as real) * 100.0, (o.failed as real) / (o.total as real) * 100.0))
  }

  /** An empty results list reaches the percentages, which raise: nothing before them can fail. */
  lemma EmptyRunRaises()
    ensures ReadAll([], GroupView) == Ok([]) && ScenarioGroups([]) == [] && ScenarioReports([]) == Ok([])
    ensures OverallOf([]) == Ok(Overall(0, 0, 0))
    ensures PercentagesAsWritten(OverallOf([]).value) == Err(ZeroDivisionError)
  {
  }

  /** The intended percentages: none for an empty run. */
  function Percentages(o: Overall): (p: Option<(real, real)>)
    ensures p.None? <==> o.total == 0
  {
    if o.total == 0 then None
    else Some(((o.successful as real) / (o.total as real) * 100.0, (o.failed as real) / (o.total as real) * 100.0))
  }

  /**
   * For a non-empty run the percentages agree with the ones written, lie in [0, 100] and add up
   * to 100.
   */
  lemma PercentagesFacts(o: Overall)
    requires o.successful <= o.total && o.failed == o.total - o.successful
    ensures o.total > 0 ==> PercentagesAsWritten(o) == Ok(Percentages(o).value)
    ensures Percentages(o).Some? ==>
              var (s, f) := Percentages(o).value;
              0.0 <= s <= 100.0 && 0.0 <= f <= 100.0 && s + f == 100.0
  {
    if o.total > 0 {
      var t := o.total as real;
      ShareOfTotal(o.successful as real, t);
      ShareOfTotal(o.failed as real, t);
      SharesAddUp(o.successful as real, o.failed as real, t);
    }
  }

  lemma ShareOfTotal(x: real, t: real)
    requires 0.0 <= x <= t && t > 0.0
    ensures 0.0 <= x / t * 100.0 <= 100.0
  {
    var q := x / t;
    assert q * t == x;
  }

  lemma SharesAddUp(x: real, y: real, t: real)
    requires x + y == t && t > 0.0
    ensures x / t * 100.0 + y / t * 100.0 == 100.0
  {
    assert x / t + y / t == (x + y) / t;
  }

  /** `all_upload_times`, `all_download_times` and `all_total_times`: the means over every successful result. */
  datatype Aggregated = Aggregated(uploadMean: real, downloadMean: real, totalMean: real)

  /** The three columns of the aggregated means. */
  datatype TimeColumn = UploadColumn | DownloadColumn | TotalColumn

  /** One element of `[r[column] for r in results if r['success']]`: `success` first, then the column. */
  function TimeView(c: TimeColumn, r: Record): (v: Result<Option<real>, KeyError>)
    ensures v.Ok? ==> (v.value.Some? <==> r.success == Some(true))
  {
    var (value, key) := match c
      case UploadColumn => (r.uploadTime, "upload_time")
      case DownloadColumn => (r.downloadTime, "download_time")
      case TotalColumn => (r.totalTime, "total_time");
    if r.success.None? then Err(KeyError("success"))
    else if !r.success.value then Ok(None)
    else if value.None? then Err(KeyError(key))
    else Ok(Some(value.value))
  }

  function KeepReal(x: Option<real>): Option<real> { x }

  /** The column over the successful results, in input order. */
  function SuccessfulColumn(results: seq<Record>, c: TimeColumn): Result<seq<real>, KeyError>
  {
    match ReadAll(results, r => TimeView(c, r))
    case Err(e) => Err(e)
    case Ok(views) => Ok(Collect(views, KeepReal))
  }

  /**
   * The aggregated means, computed only when some test succeeded; the three comprehensions run
   * one after the other, so the first missing key is looked for column by column.
   */
  function AggregatedOf(results: seq<Record>, successful: nat): Result<Option<Aggregated>, KeyError>
  {
    if successful == 0 then Ok(None)
    else
      match SuccessfulColumn(results, UploadColumn)
      case Err(e) => Err(e)
      case Ok(ups) =>
        match SuccessfulColumn(results, DownloadColumn)
        case Err(e) => Err(e)
        case Ok(downs) =>
          match SuccessfulColumn(results, TotalColumn)
          case Err(e) => Err(e)
          case Ok(totals) =>
            if ups == [] || downs == [] || totals == [] then Ok(None)
            else Ok(Some(Aggregated(Mean(ups), Mean(downs), Mean(totals))))
  }

  /** A readable column holds a value for each successful result. */
  lemma SuccessfulColumnHas(results: seq<Record>, c: TimeColumn, i: nat)
    requires SuccessfulColumn(results, c).Ok? && i < |results| && results[i].success == Some(true)
    ensures SuccessfulColumn(results, c).value != []
  {
    var views := ReadAll(results, r => TimeView(c, r)).value;
    ReadAllFacts(results, r => TimeView(c, r));
    assert KeepReal(views[i]).Some?;
    CollectMembers(views, KeepReal, views[i].value);
  }

  /**
   * With every `success` key present, the aggregated means are computed exactly when some
   * result succeeded.
   */
  lemma AggregatedPresent(results: seq<Record>)
    requires forall i :: 0 <= i < |results| ==> results[i].success.Some?
    ensures OverallOf(results).Ok?
    ensures AggregatedOf(results, OverallOf(results).value.successful).Ok? ==>
              (AggregatedOf(results, OverallOf(results).value.successful).value.Some? <==>
                 exists i :: 0 <= i < |results| && results[i].success == Some(true))
  {
    OverallCounts(results);
    if exists i :: 0 <= i < |results| && results[i].success == Some(true) {
      var i :| 0 <= i < |results| && results[i].success == Some(true);
      if SuccessfulColumn(results, UploadColumn).Ok? {
        SuccessfulColumnHas(results, UploadColumn, i);
      }
      if SuccessfulColumn(results, DownloadColumn).Ok? {
        SuccessfulColumnHas(results, DownloadColumn, i);
      }
      if SuccessfulColumn(results, TotalColumn).Ok? {
        SuccessfulColumnHas(results, TotalColumn, i);
      }
    } else {
      forall i | 0 <= i < |results| ensures results[i].success == Some(false) {
        assert results[i].success.Some?;
        assert results[i].success.value != true;
      }
    }
  }

  /** What `analyze_results` prints, as values. */
  datatype Analysis = Analysis(scenarios: seq<Entry<ScenarioKey, seq<Entry<FileKey, FileReport>>>>,
                               overall: Overall, percentages: Option<(real, real)>, aggregated: Option<Aggregated>)

  /**
   * `analyze_results` on `data['results']`, in the order of its phases: the grouping loop, the
   * per-scenario listing and summaries, the overall counts and percentages, the aggregated means.
   */
  method Analyze(results: seq<Record>) returns (r: Result<Analysis, KeyError>)
    ensures ReadAll(results, GroupView).Err? ==> r == Err(ReadAll(results, GroupView).error)
    ensures ReadAll(results, GroupView).Ok? && ScenarioReports(ScenarioGroups(ReadAll(results, GroupView).value)).Err? ==>
              r == Err(ScenarioReports(ScenarioGroups(ReadAll(results, GroupView).value)).error)
    ensures r.Ok? ==>
              && ReadAll(results, GroupView).Ok?
              && ScenarioReports(ScenarioGroups(ReadAll(results, GroupView).value)) == Ok(r.value.scenarios)
              && OverallOf(results) == Ok(r.value.overall)
              && r.value.percentages == Percentages(r.value.overall)
              && AggregatedOf(results, r.value.overall.successful) == Ok(r.value.aggregated)
    ensures r.Ok? <==> ReadAll(results, GroupView).Ok?
                       && ScenarioReports(ScenarioGroups(ReadAll(results, GroupView).value)).Ok?
                       && OverallOf(results).Ok? && AggregatedOf(results, OverallOf(results).value.successful).Ok?
  {
    var grouped := GroupScenarios(results);
    if grouped.Err? {
      return Err(grouped.error);
    }
    var reports := ScenarioReports(grouped.value);
    if reports.Err? {
      return Err(reports.error);
    }
    var overall := OverallOf(results);
    if overall.Err? {
      return Err(overall.error);
    }
    var aggregated := AggregatedOf(results, overall.value.successful);
    if aggregated.Err? {
      return Err(aggregated.error);
    }
    r := Ok(Analysis(reports.value, overall.value, Percentages(overall.value), aggregated.value));
  }

  // ---------------------------------------------------------------------------------------------
  // Which saved runs the script can analyse

  /** The results that are read as the iterations of scenario group `gi`, file group `fi`. */
  predicate InGroups(groups: Groups, r: Record)
  {
    exists gi, fi, ri :: 0 <= gi < |groups| && 0 <= fi < |groups[gi].val| && 0 <= ri < |groups[gi].val[fi].val|
                         && groups[gi].val[fi].val[ri] == r
  }

  /** Every result listed in a group is one of the grouped results. */
  lemma GroupedRecordFrom(items: seq<Keyed>, gi: nat, fi: nat, ri: nat)
    requires gi < |ScenarioGroups(items)| && fi < |ScenarioGroups(items)[gi].val|
    requires ri < |ScenarioGroups(items)[gi].val[fi].val|
    ensures exists j :: 0 <= j < |items| && items[j].record == ScenarioGroups(items)[gi].val[fi].val[ri]
  {
    var groups := ScenarioGroups(items);
    GroupKeys(items, ScenarioOf, [], FileStep);
    FindDistinct(groups, gi);
    var k, files := groups[gi].key, groups[gi].val;
    var f := files[fi].key;
    ScenarioGroupFind(items, k, f);
    GroupKeys(Filter(items, ScenarioOf, k), FileKeyOf, [], AppendRecord);
    FindDistinct(files, fi);
    var cell := Cell(items, k, f);
    assert files[fi].val == Records(cell);
    FilterMembers(Filter(items, ScenarioOf, k), FileKeyOf, f);
    FilterMembers(items, ScenarioOf, k);
    assert cell[ri] in items;
  }

  /** Every grouped result is listed in the group of its keys. */
  lemma GroupedRecordAt(items: seq<Keyed>, j: nat)
    requires j < |items|
    ensures InGroups(ScenarioGroups(items), items[j].record)
  {
    var groups := ScenarioGroups(items);
    var x := items[j];
    var k, f := x.scenario, x.fileKey;
    FilterMembers(items, ScenarioOf, k);
    FilterMembers(Filter(items, ScenarioOf, k), FileKeyOf, f);
    var cell := Cell(items, k, f);
    assert x in cell;
    ScenarioGroupFind(items, k, f);
    FindIndex(groups, k);
    var gi :| 0 <= gi < |groups| && groups[gi].key == k && groups[gi].val == Find(groups, k).value;
    var files := groups[gi].val;
    FindIndex(files, f);
    var fi :| 0 <= fi < |files| && files[fi].key == f && files[fi].val == Find(files, f).value;
    var ri :| 0 <= ri < |cell| && cell[ri] == x;
    assert groups[gi].val[fi].val[ri] == x.record;
  }

  /** A file's report fails with the error of one of its iterations. */
  lemma FileReportError(iterations: seq<Record>)
    ensures FileReportOf(iterations).Err? ==>
              exists i :: 0 <= i < |iterations| && IterationView(iterations[i]) == Err(FileReportOf(iterations).error)
  {
    ReadAllFacts(iterations, IterationView);
  }

  /** The scenario reports of one scenario fail with the error of one iteration of one of its files. */
  lemma ScenarioEntryFacts(e: Entry<ScenarioKey, seq<Entry<FileKey, seq<Record>>>>)
    ensures ScenarioEntryReport(e).Ok? <==>
              forall fi, ri :: 0 <= fi < |e.val| && 0 <= ri < |e.val[fi].val| ==> IterationView(e.val[fi].val[ri]).Ok?
    ensures ScenarioEntryReport(e).Err? ==>
              exists fi, ri :: 0 <= fi < |e.val| && 0 <= ri < |e.val[fi].val|
                               && IterationView(e.val[fi].val[ri]) == Err(ScenarioEntryReport(e).error)
  {
    ReadAllFacts(e.val, FileEntryReport);
    forall fi | 0 <= fi < |e.val|
      ensures FileEntryReport(e.val[fi]).Ok? <==> forall ri :: 0 <= ri < |e.val[fi].val| ==> IterationView(e.val[fi].val[ri]).Ok?
    {
      FileReportCounts(e.val[fi].val);
    }
    if ScenarioEntryReport(e).Err? {
      var fi :| 0 <= fi < |e.val| && FileEntryReport(e.val[fi]) == Err(ScenarioEntryReport(e).error);
      FileReportError(e.val[fi].val);
    }
  }

  /**
   * The reports are produced exactly when every grouped iteration can be read; otherwise they
   * fail with the error of one grouped iteration.
   */
  lemma ScenarioReportsFacts(groups: Groups)
    ensures ScenarioReports(groups).Ok? <==>
              forall gi, fi, ri :: 0 <= gi < |groups| && 0 <= fi < |groups[gi].val| && 0 <= ri < |groups[gi].val[fi].val|
                ==> IterationView(groups[gi].val[fi].val[ri]).Ok?
    ensures ScenarioReports(groups).Err? ==>
              exists gi, fi, ri :: 0 <= gi < |groups| && 0 <= fi < |groups[gi].val| && 0 <= ri < |groups[gi].val[fi].val|
                                   && IterationView(groups[gi].val[fi].val[ri]) == Err(ScenarioReports(groups).error)
  {
    ReadAllFacts(groups, ScenarioEntryReport);
    forall gi | 0 <= gi < |groups| {
      ScenarioEntryFacts(groups[gi]);
    }
    if ScenarioReports(groups).Err? {
      var gi :| 0 <= gi < |groups| && ScenarioEntryReport(groups[gi]) == Err(ScenarioReports(groups).error);
      ScenarioEntryFacts(groups[gi]);
    }
  }

  function IsUploadFailure(r: PyRunner.PyResult): bool { r.UploadFailed? }

  /** A failing listing of such a run fails on `random_data_gen_time` and at a successful transfer. */
  lemma PyReportsFailOnGenTime(py: seq<PyRunner.PyResult>)
    requires forall i :: 0 <= i < |py| ==> py[i].Transferred?
    ensures ReadAll(PySaved(py), GroupView).Ok?
    ensures ScenarioReports(ScenarioGroups(ReadAll(PySaved(py), GroupView).value)).Err? ==>
              ScenarioReports(ScenarioGroups(ReadAll(PySaved(py), GroupView).value)).error == KeyError("random_data_gen_time")
              && exists i :: 0 <= i < |py| && py[i].Succeeded()
  {
    var saved := PySaved(py);
    ReadAllFacts(saved, GroupView);
    var items := ReadAll(saved, GroupView).value;
    var groups := ScenarioGroups(items);
    ScenarioReportsFacts(groups);
    if ScenarioReports(groups).Err? {
      var gi, fi, ri :| 0 <= gi < |groups| && 0 <= fi < |groups[gi].val| && 0 <= ri < |groups[gi].val[fi].val|
                        && IterationView(groups[gi].val[fi].val[ri]) == Err(ScenarioReports(groups).error);
      GroupedRecordFrom(items, gi, fi, ri);
      var j :| 0 <= j < |items| && items[j].record == groups[gi].val[fi].val[ri];
      assert items[j].record == saved[j];
      PyIterationFails(py[j]);
    }
  }

  /** A transferred Python record lists its iteration unless it succeeded, and then fails on `random_data_gen_time`. */
  lemma PyIterationFails(r: PyRunner.PyResult)
    requires r.Transferred?
    ensures IterationView(FromPy(r)).Err? <==> r.Succeeded()
    ensures IterationView(FromPy(r)).Err? ==> IterationView(FromPy(r)).error == KeyError("random_data_gen_time")
  {
  }

  /** A successful transfer of such a run makes the listing fail. */
  lemma PyReportsFailWhenSucceeded(py: seq<PyRunner.PyResult>, i: nat)
    requires forall i :: 0 <= i < |py| ==> py[i].Transferred?
    requires i < |py| && py[i].Succeeded()
    ensures ReadAll(PySaved(py), GroupView).Ok?
    ensures ScenarioReports(ScenarioGroups(ReadAll(PySaved(py), GroupView).value)).Err?
  {
    var saved := PySaved(py);
    ReadAllFacts(saved, GroupView);
    var items := ReadAll(saved, GroupView).value;
    var groups := ScenarioGroups(items);
    ScenarioReportsFacts(groups);
    assert items[i].record == saved[i];
    GroupedRecordAt(items, i);
  }

  /**
   * A Python run whose uploads all went through still cannot be analysed once any of its
   * transfers succeeded: the driver never records `random_data_gen_time`, so the listing of the
   * first successful iteration raises KeyError on it.
   */
  lemma PyRunsLackGenTime(py: seq<PyRunner.PyResult>)
    requires forall i :: 0 <= i < |py| ==> py[i].Transferred?
    ensures ReadAll(PySaved(py), GroupView).Ok?
    ensures ScenarioReports(ScenarioGroups(ReadAll(PySaved(py), GroupView).value)).Err? <==>
              exists i :: 0 <= i < |py| && py[i].Succeeded()
    ensures ScenarioReports(ScenarioGroups(ReadAll(PySaved(py), GroupView).value)).Err? ==>
              ScenarioReports(ScenarioGroups(ReadAll(PySaved(py), GroupView).value)).error == KeyError("random_data_gen_time")
  {
    PyReportsFailOnGenTime(py);
    if exists i :: 0 <= i < |py| && py[i].Succeeded() {
      var i :| 0 <= i < |py| && py[i].Succeeded();
      PyReportsFailWhenSucceeded(py, i);
    }
  }

  /** A Python run with an upload failure stops in the grouping loop, on `scenario_name`. */
  lemma PyUploadFailureStopsGrouping(py: seq<PyRunner.PyResult>)
    ensures ReadAll(PySaved(py), GroupView).Err? <==> exists i :: 0 <= i < |py| && py[i].UploadFailed?
    ensures ReadAll(PySaved(py), GroupView).Err? ==> ReadAll(PySaved(py), GroupView).error == KeyError("scenario_name")
  {
    var saved := PySaved(py);
    ReadAllClass(saved, GroupView, (r: Record) => r.scenarioName.None?, KeyError("scenario_name"));
    if exists i :: 0 <= i < |py| && py[i].UploadFailed? {
      var i :| 0 <= i < |py| && py[i].UploadFailed?;
      assert saved[i].scenarioName.None?;
    }
  }

  /** A Go run is grouped and every one of its iterations can be listed. */
  lemma GoRunsAnalyse(go: seq<GoRunner.GoResult>)
    ensures ReadAll(GoSaved(go), GroupView).Ok?
    ensures ScenarioReports(ScenarioGroups(ReadAll(GoSaved(go), GroupView).value)).Ok?
    ensures OverallOf(GoSaved(go)).Ok?
  {
    var saved := GoSaved(go);
    ReadAllFacts(saved, GroupView);
    ReadAllFacts(saved, SuccessView);
    var items := ReadAll(saved, GroupView).value;
    var groups := ScenarioGroups(items);
    ScenarioReportsFacts(groups);
    forall gi, fi, ri | 0 <= gi < |groups| && 0 <= fi < |groups[gi].val| && 0 <= ri < |groups[gi].val[fi].val|
      ensures IterationView(groups[gi].val[fi].val[ri]).Ok?
    {
      GroupedRecordFrom(items, gi, fi, ri);
      var j :| 0 <= j < |items| && items[j].record == groups[gi].val[fi].val[ri];
      assert items[j].record == saved[j];
    }
  }

  /** The aggregated means of a Go run can be read, and are computed exactly when something succeeded. */
  lemma GoRunsAggregate(go: seq<GoRunner.GoResult>)
    ensures OverallOf(GoSaved(go)).Ok?
    ensures AggregatedOf(GoSaved(go), OverallOf(GoSaved(go)).value.successful).Ok?
    ensures AggregatedOf(GoSaved(go), OverallOf(GoSaved(go)).value.successful).value.Some? <==>
              exists i :: 0 <= i < |go| && go[i].success
  {
    var saved := GoSaved(go);
    AggregatedPresent(saved);
    GoColumnRead(go, UploadColumn);
    GoColumnRead(go, DownloadColumn);
    GoColumnRead(go, TotalColumn);
    if exists i :: 0 <= i < |go| && go[i].success {
      var i :| 0 <= i < |go| && go[i].success;
      assert saved[i].success == Some(true);
    }
  }

  /** Every column of a Go run can be read. */
  lemma GoColumnRead(go: seq<GoRunner.GoResult>, c: TimeColumn)
    ensures SuccessfulColumn(GoSaved(go), c).Ok?
  {
    var saved := GoSaved(go);
    forall i | 0 <= i < |saved| ensures TimeView(c, saved[i]).Ok? {
      GoRecordComplete(go[i]);
    }
    ReadAllFacts(saved, r => TimeView(c, r));
  }
}
