/**
 * The two tables of `visualize_results.py` up to the point where the rows are handed to a
 * DataFrame: one pass over the results that counts each result in exactly one group, then one
 * row per group that has at least one success.
 */
module VisualizeResults {
  import opened Outcomes
  import opened Grouping
  import opened Samples
  import opened ResultRecords
  import PyRunner
  import GoRunner

  /** `result.get('bandwidth', default)`: the default only when the key is absent; a JSON null stays None. */
  function BandwidthOr(r: Record, default: string): (b: Option<string>)
    ensures r.bandwidth.None? ==> b == Some(default)
    ensures r.bandwidth.Some? ==> b == r.bandwidth.value
  {
    match r.bandwidth
    case None => Some(default)
    case Some(b) => b
  }

  // ---------------------------------------------------------------------------------------------
  // create_summary_table

  /** The outer dictionary key `(scenario, scenario_name, bandwidth)`. */
  datatype ScenarioKey = ScenarioKey(id: string, name: string, bandwidth: Option<string>)

  /** The four values a successful result contributes. */
  datatype Sample = Sample(uploadTime: real, downloadTime: real, uploadThroughput: real, downloadThroughput: real)

  /** What the summary pass reads of one result; `sample` is present exactly for a success. */
  datatype SummaryItem = SummaryItem(key: ScenarioKey, file: string, sample: Option<Sample>)

  /**
   * The keys the summary pass reads, in the order it reads them: `scenario`, `scenario_name`,
   * the optional `bandwidth`, `file`, `success`, and for a success the four measurements.
   */
  function SummaryView(r: Record): (v: Result<SummaryItem, KeyError>)
    ensures v.Ok? <==> r.scenario.Some? && r.scenarioName.Some? && r.file.Some? && r.success.Some?
                       && (r.success.value ==>
                             r.uploadTime.Some? && r.downloadTime.Some? && r.uploadThroughput.Some? && r.downloadThroughput.Some?)
    ensures v.Ok? ==> v.value.key == ScenarioKey(r.scenario.value, r.scenarioName.value, BandwidthOr(r, "unlimited"))
                      && v.value.file == r.file.value && (v.value.sample.Some? <==> r.success.value)
    ensures v.Err? ==> v.error.key in {"scenario", "scenario_name", "file", "success", "upload_time",
                                       "download_time", "upload_throughput", "download_throughput"}
  {
    if r.scenario.None? then Err(KeyError("scenario"))
    else if r.scenarioName.None? then Err(KeyError("scenario_name"))
    else
      var key := ScenarioKey(r.scenario.value, r.scenarioName.value, BandwidthOr(r, "unlimited"));
      if r.file.None? then Err(KeyError("file"))
      else if r.success.None? then Err(KeyError("success"))
      else if !r.success.value then Ok(SummaryItem(key, r.file.value, None))
      else if r.uploadTime.None? then Err(KeyError("upload_time"))
      else if r.downloadTime.None? then Err(KeyError("download_time"))
      else if r.uploadThroughput.None? then Err(KeyError("upload_throughput"))
      else if r.downloadThroughput.None? then Err(KeyError("download_throughput"))
      else
        Ok(SummaryItem(key, r.file.value, Some(Sample(r.uploadTime.value, r.downloadTime.value,
                                                      r.uploadThroughput.value, r.downloadThroughput.value))))
  }

  /** The per-file dictionary of the summary pass. */
  datatype FileCounter = FileCounter(uploadTimes: seq<real>, downloadTimes: seq<real>,
                                     uploadThroughputs: seq<real>, downloadThroughputs: seq<real>,
                                     successCount: nat, totalCount: nat)

  const NoRuns := FileCounter([], [], [], [], 0, 0)

  /** One result counted into its file's dictionary: `total_count` always, the rest on success. */
  function Tally(c: FileCounter, it: SummaryItem): FileCounter
  {
    var counted := c.(totalCount := c.totalCount + 1);
    match it.sample
    case None => counted
    case Some(s) =>
      counted.(uploadTimes := c.uploadTimes + [s.uploadTime], downloadTimes := c.downloadTimes + [s.downloadTime],
               uploadThroughputs := c.uploadThroughputs + [s.uploadThroughput],
               downloadThroughputs := c.downloadThroughputs + [s.downloadThroughput],
               successCount := c.successCount + 1)
  }

  /** The counter invariant: every list holds `success_count` values, and `success_count <= total_count`. */
  predicate Tallied(c: FileCounter)
  {
    && |c.uploadTimes| == c.successCount && |c.downloadTimes| == c.successCount
    && |c.uploadThroughputs| == c.successCount && |c.downloadThroughputs| == c.successCount
    && c.successCount <= c.totalCount
  }

  function SampleOf(it: SummaryItem): Option<Sample> { it.sample }

  function UploadTimeOf(s: Sample): real { s.uploadTime }
  function DownloadTimeOf(s: Sample): real { s.downloadTime }
  function UploadThroughputOf(s: Sample): real { s.uploadThroughput }
  function DownloadThroughputOf(s: Sample): real { s.downloadThroughput }

  /**
   * The reference counter of a group: the successful results' measurements in input order,
   * their number, and the group's size.
   */
  function CounterOf(items: seq<SummaryItem>): FileCounter
  {
    var ss := Collect(items, SampleOf);
    FileCounter(Column(ss, UploadTimeOf), Column(ss, DownloadTimeOf), Column(ss, UploadThroughputOf),
                Column(ss, DownloadThroughputOf), |ss|, |items|)
  }

  /** Counting a group one result at a time yields its reference counter. */
  lemma {:induction false} TallyFold(items: seq<SummaryItem>)
    ensures FoldSeq(items, NoRuns, Tally) == CounterOf(items)
  {
    if items != [] {
      var prefix, x := items[..|items| - 1], items[|items| - 1];
      TallyFold(prefix);
      assert items == prefix + [x];
      CollectSnoc(prefix, x, SampleOf);
      var ss := Collect(prefix, SampleOf);
      CollectLength(prefix, SampleOf);
      if x.sample.Some? {
        var s := x.sample.value;
        ColumnSnoc(ss, s, UploadTimeOf);
        ColumnSnoc(ss, s, DownloadTimeOf);
        ColumnSnoc(ss, s, UploadThroughputOf);
        ColumnSnoc(ss, s, DownloadThroughputOf);
      }
    }
  }

  /**
   * The reference counter keeps the counter invariant, counts exactly the successful results of
   * the group, and lists their measurements in input order.
   */
  lemma CounterOfFacts(items: seq<SummaryItem>)
    ensures Tallied(CounterOf(items))
    ensures CounterOf(items).totalCount == |items|
    ensures CounterOf(items).successCount == |Collect(items, SampleOf)|
    ensures forall j :: 0 <= j < CounterOf(items).successCount ==>
              CounterOf(items).uploadTimes[j] == Collect(items, SampleOf)[j].uploadTime
              && CounterOf(items).downloadThroughputs[j] == Collect(items, SampleOf)[j].downloadThroughput
  {
    CollectLength(items, SampleOf);
  }

  /** Counting keeps the counter invariant. */
  lemma TallyKeeps(c: FileCounter, it: SummaryItem)
    requires Tallied(c)
    ensures Tallied(Tally(c, it))
    ensures Tally(c, it).totalCount == c.totalCount + 1
    ensures Tally(c, it).successCount == c.successCount + (if it.sample.Some? then 1 else 0)
  {
  }

  /** `scenarios[key][file_key]` updated for one result: the inner dictionary keyed by file. */
  function FileStep(files: seq<Entry<string, FileCounter>>, it: SummaryItem): seq<Entry<string, FileCounter>>
  {
    Upsert(files, it.file, NoRuns, Tally, it)
  }

  function KeyOf(it: SummaryItem): ScenarioKey { it.key }
  function FileOf(it: SummaryItem): string { it.file }

  /** The nested dictionary `scenarios` after the pass over the results. */
  function SummaryGroups(items: seq<SummaryItem>): seq<Entry<ScenarioKey, seq<Entry<string, FileCounter>>>>
  {
    GroupInto(items, KeyOf, [], FileStep)
  }

  /** Folding `FileStep` over one scenario's results is grouping them by file. */
  lemma {:induction false} FileStepFold(items: seq<SummaryItem>)
    ensures FoldSeq(items, [], FileStep) == GroupInto(items, FileOf, NoRuns, Tally)
  {
    if items != [] {
      FileStepFold(items[..|items| - 1]);
    }
  }

  /** The results of scenario `k` and file `f`, in input order. */
  function Cell(items: seq<SummaryItem>, k: ScenarioKey, f: string): seq<SummaryItem>
  {
    Filter(Filter(items, KeyOf, k), FileOf, f)
  }

  /**
   * Each result is counted in exactly the group of its scenario key and file: the counter of
   * `scenarios[k][f]` is the reference counter of exactly the results with that key and file,
   * and the group exists exactly when there is such a result.
   */
  lemma SummaryGroupFind(items: seq<SummaryItem>, k: ScenarioKey, f: string)
    ensures Find(SummaryGroups(items), k).Some? <==> Filter(items, KeyOf, k) != []
    ensures Find(SummaryGroups(items), k).Some? ==>
              Find(SummaryGroups(items), k).value == GroupInto(Filter(items, KeyOf, k), FileOf, NoRuns, Tally)
              && Find(Find(SummaryGroups(items), k).value, f) ==
                   if Cell(items, k, f) == [] then None else Some(CounterOf(Cell(items, k, f)))
  {
    GroupFind(items, KeyOf, [], FileStep, k);
    FileStepFold(Filter(items, KeyOf, k));
    GroupFind(Filter(items, KeyOf, k), FileOf, NoRuns, Tally, f);
    TallyFold(Cell(items, k, f));
  }

  predicate AllTallied(files: seq<Entry<string, FileCounter>>)
  {
    forall j :: 0 <= j < |files| ==> Tallied(files[j].val)
  }

  /** Every counter of the nested dictionary keeps the counter invariant. */
  lemma SummaryGroupsTallied(items: seq<SummaryItem>)
    ensures forall i :: 0 <= i < |SummaryGroups(items)| ==> AllTallied(SummaryGroups(items)[i].val)
  {
    forall files, it | AllTallied(files) ensures AllTallied(FileStep(files, it)) {
      forall c | Tallied(c) ensures Tallied(Tally(c, it)) { TallyKeeps(c, it); }
      UpsertAll(files, it.file, NoRuns, Tally, it, Tallied);
    }
    GroupIntoAll(items, KeyOf, [], FileStep, AllTallied);
  }

  /** A row of the summary table; the format strings are left out, the numbers they render kept. */
  datatype SummaryRow = SummaryRow(scenario: string, bandwidth: Option<string>, file: string,
                                   successes: nat, total: nat, avgUploadMs: real, avgDownloadMs: real,
                                   uploadMbps: real, downloadMbps: real)

  /** The bandwidth column: 'unlimited' is shown as 'No Limit', anything else (None included) as is. */
  function BandwidthLabel(b: Option<string>): (l: Option<string>)
    ensures b == Some("unlimited") ==> l == Some("No Limit")
    ensures b != Some("unlimited") ==> l == b
  {
    if b == Some("unlimited") then Some("No Limit") else b
  }

  /** The row of one group with at least one success: means in milliseconds and megabits per second. */
  function SummaryRowOf(k: ScenarioKey, file: string, c: FileCounter): SummaryRow
    requires Tallied(c) && c.successCount > 0
  {
    SummaryRow(k.name, BandwidthLabel(k.bandwidth), file, c.successCount, c.totalCount,
               Mean(c.uploadTimes) * 1000.0, Mean(c.downloadTimes) * 1000.0,
               Mean(c.uploadThroughputs) * 8.0 / 1000000.0, Mean(c.downloadThroughputs) * 8.0 / 1000000.0)
  }

  /** The rows of one scenario's files, in the inner dictionary's order. */
  function FileRows(k: ScenarioKey, files: seq<Entry<string, FileCounter>>): seq<SummaryRow>
    requires AllTallied(files)
  {
    if files == [] then []
    else
      var e := files[|files| - 1];
      FileRows(k, files[..|files| - 1]) + (if e.val.successCount > 0 then [SummaryRowOf(k, e.key, e.val)] else [])
  }

  /** The rows of all scenarios, in the outer dictionary's order. */
  function SummaryRows(groups: seq<Entry<ScenarioKey, seq<Entry<string, FileCounter>>>>): seq<SummaryRow>
    requires forall i :: 0 <= i < |groups| ==> AllTallied(groups[i].val)
  {
    if groups == [] then []
    else
      var e := groups[|groups| - 1];
      SummaryRows(groups[..|groups| - 1]) + FileRows(e.key, e.val)
  }

  /** A scenario's rows are exactly the rows of its files with at least one success. */
  lemma {:induction false} FileRowsMembers(k: ScenarioKey, files: seq<Entry<string, FileCounter>>, r: SummaryRow)
    requires AllTallied(files)
    ensures r in FileRows(k, files) <==>
              exists j :: 0 <= j < |files| && files[j].val.successCount > 0 && r == SummaryRowOf(k, files[j].key, files[j].val)
  {
    if files != [] {
      var prefix := files[..|files| - 1];
      FileRowsMembers(k, prefix, r);
      assert forall j :: 0 <= j < |prefix| ==> prefix[j] == files[j];
    }
  }

  /** The table's rows are exactly the rows of the (scenario, file) groups with at least one success. */
  lemma {:induction false} SummaryRowsMembers(groups: seq<Entry<ScenarioKey, seq<Entry<string, FileCounter>>>>, r: SummaryRow)
    requires forall i :: 0 <= i < |groups| ==> AllTallied(groups[i].val)
    ensures r in SummaryRows(groups) <==>
              exists i, j :: 0 <= i < |groups| && 0 <= j < |groups[i].val| && groups[i].val[j].val.successCount > 0
                             && r == SummaryRowOf(groups[i].key, groups[i].val[j].key, groups[i].val[j].val)
  {
    if groups != [] {
      var prefix := groups[..|groups| - 1];
      var last := groups[|groups| - 1];
      SummaryRowsMembers(prefix, r);
      FileRowsMembers(last.key, last.val, r);
      assert forall i :: 0 <= i < |prefix| ==> prefix[i] == groups[i];
    }
  }

  /**
   * `create_summary_table` on readable results: a row for scenario key `k` and file `f` is in
   * the table exactly when some result with that key and file succeeded, and it reports the
   * successes and the total of exactly those results and the means of the successes' values.
   */
  lemma SummaryTableRows(items: seq<SummaryItem>, k: ScenarioKey, f: string)
    ensures forall i :: 0 <= i < |SummaryGroups(items)| ==> AllTallied(SummaryGroups(items)[i].val)
    ensures Tallied(CounterOf(Cell(items, k, f)))
    ensures Collect(Cell(items, k, f), SampleOf) != [] ==>
              CounterOf(Cell(items, k, f)).successCount > 0
              && SummaryRowOf(k, f, CounterOf(Cell(items, k, f))) in SummaryRows(SummaryGroups(items))
  {
    SummaryGroupsTallied(items);
    var g := SummaryGroups(items);
    var cell := Cell(items, k, f);
    CounterOfFacts(cell);
    if Collect(cell, SampleOf) != [] {
      CollectLength(cell, SampleOf);
      FilterMembers(Filter(items, KeyOf, k), FileOf, f);
      assert cell[0] in Filter(items, KeyOf, k);
      SummaryGroupFind(items, k, f);
      FindIndex(g, k);
      var i :| 0 <= i < |g| && g[i].key == k && g[i].val == Find(g, k).value;
      FindIndex(g[i].val, f);
      var j :| 0 <= j < |g[i].val| && g[i].val[j].key == f && g[i].val[j].val == Find(g[i].val, f).value;
      SummaryRowsMembers(g, SummaryRowOf(k, f, CounterOf(cell)));
    }
  }

  /** Every row of the table comes from a (scenario, file) group with a success, counted from exactly its results. */
  lemma SummaryRowsFrom(items: seq<SummaryItem>, r: SummaryRow)
    ensures forall i :: 0 <= i < |SummaryGroups(items)| ==> AllTallied(SummaryGroups(items)[i].val)
    ensures r in SummaryRows(SummaryGroups(items)) ==>
              exists k, f :: Collect(Cell(items, k, f), SampleOf) != [] && Tallied(CounterOf(Cell(items, k, f)))
                             && CounterOf(Cell(items, k, f)).successCount > 0
                             && r == SummaryRowOf(k, f, CounterOf(Cell(items, k, f)))
  {
    SummaryGroupsTallied(items);
    var g := SummaryGroups(items);
    if r in SummaryRows(g) {
      SummaryRowsMembers(g, r);
      var i, j :| 0 <= i < |g| && 0 <= j < |g[i].val| && g[i].val[j].val.successCount > 0
                  && r == SummaryRowOf(g[i].key, g[i].val[j].key, g[i].val[j].val);
      var k, f := g[i].key, g[i].val[j].key;
      GroupKeys(items, KeyOf, [], FileStep);
      FindDistinct(g, i);
      SummaryGroupFind(items, k, f);
      GroupKeys(Filter(items, KeyOf, k), FileOf, NoRuns, Tally);
      FindDistinct(g[i].val, j);
      CounterOfFacts(Cell(items, k, f));
    }
  }

  /** The counting pass of `create_summary_table`. */
  method CountSummary(results: seq<Record>) returns (r: Result<seq<Entry<ScenarioKey, seq<Entry<string, FileCounter>>>>, KeyError>)
    ensures r == match ReadAll(results, SummaryView)
                 case Err(e) => Err(e)
                 case Ok(items) => Ok(SummaryGroups(items))
  {
    var scenarios: seq<Entry<ScenarioKey, seq<Entry<string, FileCounter>>>> := [];
    ghost var items: seq<SummaryItem> := [];
    var i := 0;
    while i < |results|
      invariant 0 <= i <= |results|
      invariant ReadAll(results[..i], SummaryView) == Ok(items) && scenarios == SummaryGroups(items)
    {
      ReadAllSnoc(results, i, SummaryView);
      var v := SummaryView(results[i]);
      if v.Err? {
        ReadAllStops(results, i + 1, SummaryView);
        return Err(v.error);
      }
      assert (items + [v.value])[..|items|] == items;
      scenarios := Upsert(scenarios, v.value.key, [], FileStep, v.value);
      items := items + [v.value];
      i := i + 1;
    }
    assert results[..i] == results;
    r := Ok(scenarios);
  }

  /** The row loop over one scenario's files. */
  method EmitFileRows(k: ScenarioKey, files: seq<Entry<string, FileCounter>>) returns (rows: seq<SummaryRow>)
    requires AllTallied(files)
    ensures rows == FileRows(k, files)
  {
    rows := [];
    var j := 0;
    while j < |files|
      invariant 0 <= j <= |files| && rows == FileRows(k, files[..j])
    {
      assert files[..j + 1][..j] == files[..j];
      if files[j].val.successCount > 0 {
        rows := rows + [SummaryRowOf(k, files[j].key, files[j].val)];
      }
      j := j + 1;
    }
    assert files[..j] == files;
  }

  /** The row loop over the scenarios. */
  method EmitSummaryRows(groups: seq<Entry<ScenarioKey, seq<Entry<string, FileCounter>>>>) returns (rows: seq<SummaryRow>)
    requires forall i :: 0 <= i < |groups| ==> AllTallied(groups[i].val)
    ensures rows == SummaryRows(groups)
  {
    rows := [];
    var i := 0;
    while i < |groups|
      invariant 0 <= i <= |groups| && rows == SummaryRows(groups[..i])
    {
      assert groups[..i + 1][..i] == groups[..i];
      var more := EmitFileRows(groups[i].key, groups[i].val);
      rows := rows + more;
      i := i + 1;
    }
    assert groups[..i] == groups;
  }

  /**
   * `create_summary_table(data)` on `data['results']`: the KeyError of the first unreadable
   * result, or the rows of the groups with a success (see SummaryTableRows and SummaryRowsFrom).
   */
  method CreateSummaryTable(results: seq<Record>) returns (r: Result<seq<SummaryRow>, KeyError>)
    ensures r.Err? <==> ReadAll(results, SummaryView).Err?
    ensures r.Err? ==> r.error == ReadAll(results, SummaryView).error
    ensures r.Ok? ==> forall i :: 0 <= i < |SummaryGroups(ReadAll(results, SummaryView).value)| ==>
                        AllTallied(SummaryGroups(ReadAll(results, SummaryView).value)[i].val)
    ensures r.Ok? ==> r.value == SummaryRows(SummaryGroups(ReadAll(results, SummaryView).value))
  {
    var counted := CountSummary(results);
    if counted.Err? {
      return Err(counted.error);
    }
    SummaryGroupsTallied(ReadAll(results, SummaryView).value);
    var rows := EmitSummaryRows(counted.value);
    r := Ok(rows);
  }

  // ---------------------------------------------------------------------------------------------
  // create_detailed_table

  /** The dictionary key `(scenario_name, bandwidth, file)`. */
  datatype DetailKey = DetailKey(scenarioName: string, bandwidth: Option<string>, file: string)

  /** The five values a success contributes, already scaled to milliseconds and megabits per second. */
  datatype DetailSample = DetailSample(uploadMs: real, downloadMs: real, uploadMbps: real, downloadMbps: real, totalMs: real)

  datatype DetailItem = DetailItem(key: DetailKey, sample: Option<DetailSample>)

  function Mbps(bytesPerSecond: real): real { bytesPerSecond * 8.0 / 1000000.0 }

  /**
   * The keys the detailed pass reads, in order: `scenario_name`, the optional `bandwidth`
   * (defaulting to 'No Limit'), `file`, `success`, and for a success the five measurements.
   */
  function DetailView(r: Record): (v: Result<DetailItem, KeyError>)
    ensures v.Ok? <==> r.scenarioName.Some? && r.file.Some? && r.success.Some?
                       && (r.success.value ==>
                             r.uploadTime.Some? && r.downloadTime.Some? && r.uploadThroughput.Some?
                             && r.downloadThroughput.Some? && r.totalTime.Some?)
    ensures v.Ok? ==> v.value.key == DetailKey(r.scenarioName.value, BandwidthOr(r, "No Limit"), r.file.value)
                      && (v.value.sample.Some? <==> r.success.value)
    ensures v.Ok? && v.value.sample.Some? ==>
              v.value.sample.value.uploadMs == r.uploadTime.value * 1000.0
              && v.value.sample.value.downloadMbps == Mbps(r.downloadThroughput.value)
  {
    if r.scenarioName.None? then Err(KeyError("scenario_name"))
    else
      var key := DetailKey(r.scenarioName.value, BandwidthOr(r, "No Limit"), r.file.GetOr([]));
      if r.file.None? then Err(KeyError("file"))
      else if r.success.None? then Err(KeyError("success"))
      else if !r.success.value then Ok(DetailItem(key, None))
      else if r.uploadTime.None? then Err(KeyError("upload_time"))
      else if r.downloadTime.None? then Err(KeyError("download_time"))
      else if r.uploadThroughput.None? then Err(KeyError("upload_throughput"))
      else if r.downloadThroughput.None? then Err(KeyError("download_throughput"))
      else if r.totalTime.None? then Err(KeyError("total_time"))
      else
        Ok(DetailItem(key, Some(DetailSample(r.uploadTime.value * 1000.0, r.downloadTime.value * 1000.0,
                                             Mbps(r.uploadThroughput.value), Mbps(r.downloadThroughput.value),
                                             r.totalTime.value * 1000.0))))
  }

  /** `grouped_stats[key]`. */
  datatype DetailCounter = DetailCounter(uploadTimes: seq<real>, downloadTimes: seq<real>,
                                         uploadSpeeds: seq<real>, downloadSpeeds: seq<real>, totalTimes: seq<real>,
                                         successCount: nat, totalCount: nat)

  const NoDetail := DetailCounter([], [], [], [], [], 0, 0)

  function DetailTally(c: DetailCounter, it: DetailItem): DetailCounter
  {
    var counted := c.(totalCount := c.totalCount + 1);
    match it.sample
    case None => counted
    case Some(s) =>
      counted.(successCount := c.successCount + 1, uploadTimes := c.uploadTimes + [s.uploadMs],
               downloadTimes := c.downloadTimes + [s.downloadMs], uploadSpeeds := c.uploadSpeeds + [s.uploadMbps],
               downloadSpeeds := c.downloadSpeeds + [s.downloadMbps], totalTimes := c.totalTimes + [s.totalMs])
  }

  predicate DetailTallied(c: DetailCounter)
  {
    && |c.uploadTimes| == c.successCount && |c.downloadTimes| == c.successCount
    && |c.uploadSpeeds| == c.successCount && |c.downloadSpeeds| == c.successCount
    && |c.totalTimes| == c.successCount && c.successCount <= c.totalCount
  }

  function DetailSampleOf(it: DetailItem): Option<DetailSample> { it.sample }
  function UploadMsOf(s: DetailSample): real { s.uploadMs }
  function DownloadMsOf(s: DetailSample): real { s.downloadMs }
  function UploadMbpsOf(s: DetailSample): real { s.uploadMbps }
  function DownloadMbpsOf(s: DetailSample): real { s.downloadMbps }
  function TotalMsOf(s: DetailSample): real { s.totalMs }

  /** The reference counter of one detailed group. */
  function DetailCounterOf(items: seq<DetailItem>): DetailCounter
  {
    var ss := Collect(items, DetailSampleOf);
    DetailCounter(Column(ss, UploadMsOf), Column(ss, DownloadMsOf), Column(ss, UploadMbpsOf),
                  Column(ss, DownloadMbpsOf), Column(ss, TotalMsOf), |ss|, |items|)
  }

  /** Counting a detailed group one result at a time yields its reference counter, which keeps the invariant. */
  lemma {:induction false} DetailTallyFold(items: seq<DetailItem>)
    ensures FoldSeq(items, NoDetail, DetailTally) == DetailCounterOf(items)
    ensures DetailTallied(DetailCounterOf(items)) && DetailCounterOf(items).totalCount == |items|
  {
    CollectLength(items, DetailSampleOf);
    if items != [] {
      var prefix, x := items[..|items| - 1], items[|items| - 1];
      DetailTallyFold(prefix);
      assert items == prefix + [x];
      CollectSnoc(prefix, x, DetailSampleOf);
      var ss := Collect(prefix, DetailSampleOf);
      if x.sample.Some? {
        var s := x.sample.value;
        ColumnSnoc(ss, s, UploadMsOf);
        ColumnSnoc(ss, s, DownloadMsOf);
        ColumnSnoc(ss, s, UploadMbpsOf);
        ColumnSnoc(ss, s, DownloadMbpsOf);
        ColumnSnoc(ss, s, TotalMsOf);
      }
    }
  }

  function DetailKeyOf(it: DetailItem): DetailKey { it.key }

  /** `grouped_stats` after the pass over the results. */
  function DetailGroups(items: seq<DetailItem>): seq<Entry<DetailKey, DetailCounter>>
  {
    GroupInto(items, DetailKeyOf, NoDetail, DetailTally)
  }

  /**
   * Each result is counted in exactly the group of its key: the entry for `k` exists exactly
   * when some result has key `k`, and holds the reference counter of exactly those results.
   */
  lemma DetailGroupFind(items: seq<DetailItem>, k: DetailKey)
    ensures Find(DetailGroups(items), k) ==
              if Filter(items, DetailKeyOf, k) == [] then None else Some(DetailCounterOf(Filter(items, DetailKeyOf, k)))
  {
    GroupFind(items, DetailKeyOf, NoDetail, DetailTally, k);
    DetailTallyFold(Filter(items, DetailKeyOf, k));
  }

  lemma DetailGroupsTallied(items: seq<DetailItem>)
    ensures forall i :: 0 <= i < |DetailGroups(items)| ==> DetailTallied(DetailGroups(items)[i].val)
  {
    forall c, it | DetailTallied(c) ensures DetailTallied(DetailTally(c, it)) { }
    GroupIntoAll(items, DetailKeyOf, NoDetail, DetailTally, DetailTallied);
  }

  /**
   * A row of the detailed table. The standard deviations are carried as sample variances (their
   * squares), 0 when there are fewer than two samples, where the table shows "0.00".
   */
  datatype DetailRow = DetailRow(scenario: string, bandwidth: Option<string>, file: string,
                                 successes: nat, total: nat, successPercent: real,
                                 uploadMean: real, uploadMedian: real, uploadVariance: real,
                                 downloadMean: real, downloadMedian: real, downloadVariance: real,
                                 uploadSpeed: real, downloadSpeed: real, totalTimeMean: real)

  function DetailRowOf(k: DetailKey, c: DetailCounter): DetailRow
    requires DetailTallied(c) && c.successCount > 0
  {
    DetailRow(k.scenarioName, k.bandwidth, k.file, c.successCount, c.totalCount,
              SuccessPercent(c.successCount, c.totalCount),
              Mean(c.uploadTimes), Median(SortReals(c.uploadTimes)), SampleVariance(c.uploadTimes),
              Mean(c.downloadTimes), Median(SortReals(c.downloadTimes)), SampleVariance(c.downloadTimes),
              Mean(c.uploadSpeeds), Mean(c.downloadSpeeds), Mean(c.totalTimes))
  }

  /** `success_count/total_count*100`. */
  function SuccessPercent(successes: nat, total: nat): real
    requires total > 0
  {
    (successes as real) / (total as real) * 100.0
  }

  /** The success percentage lies in (0, 100] when there is a success, and is 100 exactly when every result succeeded. */
  lemma SuccessPercentRange(successes: nat, total: nat)
    requires 0 < successes <= total
    ensures 0.0 < SuccessPercent(successes, total) <= 100.0
    ensures SuccessPercent(successes, total) == 100.0 <==> successes == total
  {
    var s, t := successes as real, total as real;
    var q := s / t;
    assert SuccessPercent(successes, total) == q * 100.0;
    assert q * t == s;
    assert q > 0.0;
    assert q <= 1.0;
    if successes == total {
      assert q == t / t == 1.0;
    }
    if q == 1.0 {
      assert s == t;
    }
  }

  /**
   * A detailed row reports the success percentage of SuccessPercentRange; a zero spread for a
   * single sample; and a mean and median within the range of the upload times.
   */
  lemma DetailRowFacts(k: DetailKey, c: DetailCounter)
    requires DetailTallied(c) && c.successCount > 0
    ensures 0.0 < DetailRowOf(k, c).successPercent <= 100.0
    ensures DetailRowOf(k, c).successPercent == 100.0 <==> c.successCount == c.totalCount
    ensures c.successCount == 1 ==> DetailRowOf(k, c).uploadVariance == 0.0 && DetailRowOf(k, c).downloadVariance == 0.0
    ensures SeqMin(c.uploadTimes) <= DetailRowOf(k, c).uploadMean <= SeqMax(c.uploadTimes)
    ensures SeqMin(c.uploadTimes) <= DetailRowOf(k, c).uploadMedian <= SeqMax(c.uploadTimes)
  {
    SuccessPercentRange(c.successCount, c.totalCount);
    MeanWithin(c.uploadTimes);
    var sorted := SortReals(c.uploadTimes);
    MedianWithin(sorted);
    SortedEnds(c.uploadTimes, sorted);
  }

  /**
   * The row of a group, present when the group has a success. The counter invariant, which every
   * group keeps (DetailGroupsTallied), only makes the function total.
   */
  function DetailRowIf(e: Entry<DetailKey, DetailCounter>): Option<DetailRow>
  {
    if e.val.successCount > 0 && DetailTallied(e.val) then Some(DetailRowOf(e.key, e.val)) else None
  }

  /** The rows of the groups with at least one success, in the dictionary's order. */
  function DetailRows(groups: seq<Entry<DetailKey, DetailCounter>>): seq<DetailRow>
  {
    Collect(groups, DetailRowIf)
  }

  /**
   * `create_detailed_table` on readable results: the table has a row for key `k` exactly when
   * some result with that key succeeded, and that row is computed from exactly those results.
   */
  lemma DetailTableRows(items: seq<DetailItem>, k: DetailKey, r: DetailRow)
    ensures forall i :: 0 <= i < |DetailGroups(items)| ==> DetailTallied(DetailGroups(items)[i].val)
    ensures DetailTallied(DetailCounterOf(Filter(items, DetailKeyOf, k)))
    ensures Collect(Filter(items, DetailKeyOf, k), DetailSampleOf) != [] ==>
              DetailCounterOf(Filter(items, DetailKeyOf, k)).successCount > 0
              && DetailRowOf(k, DetailCounterOf(Filter(items, DetailKeyOf, k))) in DetailRows(DetailGroups(items))
    ensures r in DetailRows(DetailGroups(items)) ==>
              exists k' :: Collect(Filter(items, DetailKeyOf, k'), DetailSampleOf) != []
                           && DetailTallied(DetailCounterOf(Filter(items, DetailKeyOf, k')))
                           && DetailCounterOf(Filter(items, DetailKeyOf, k')).successCount > 0
                           && r == DetailRowOf(k', DetailCounterOf(Filter(items, DetailKeyOf, k')))
  {
    DetailGroupsTallied(items);
    var g := DetailGroups(items);
    var group := Filter(items, DetailKeyOf, k);
    DetailTallyFold(group);
    CollectLength(group, DetailSampleOf);
    if Collect(group, DetailSampleOf) != [] {
      DetailGroupFind(items, k);
      FindIndex(g, k);
      var i :| 0 <= i < |g| && g[i].key == k && g[i].val == Find(g, k).value;
      assert DetailRowIf(g[i]) == Some(DetailRowOf(k, DetailCounterOf(group)));
      CollectMembers(g, DetailRowIf, DetailRowOf(k, DetailCounterOf(group)));
    }
    if r in DetailRows(g) {
      CollectMembers(g, DetailRowIf, r);
      var i :| 0 <= i < |g| && DetailRowIf(g[i]) == Some(r);
      GroupKeys(items, DetailKeyOf, NoDetail, DetailTally);
      FindDistinct(g, i);
      DetailGroupFind(items, g[i].key);
      DetailTallyFold(Filter(items, DetailKeyOf, g[i].key));
    }
  }

  /** The counting pass of `create_detailed_table`. */
  method CountDetails(results: seq<Record>) returns (r: Result<seq<Entry<DetailKey, DetailCounter>>, KeyError>)
    ensures r == match ReadAll(results, DetailView)
                 case Err(e) => Err(e)
                 case Ok(items) => Ok(DetailGroups(items))
  {
    var grouped: seq<Entry<DetailKey, DetailCounter>> := [];
    ghost var items: seq<DetailItem> := [];
    var i := 0;
    while i < |results|
      invariant 0 <= i <= |results|
      invariant ReadAll(results[..i], DetailView) == Ok(items) && grouped == DetailGroups(items)
    {
      ReadAllSnoc(results, i, DetailView);
      var v := DetailView(results[i]);
      if v.Err? {
        ReadAllStops(results, i + 1, DetailView);
        return Err(v.error);
      }
      assert (items + [v.value])[..|items|] == items;
      grouped := Upsert(grouped, v.value.key, NoDetail, DetailTally, v.value);
      items := items + [v.value];
      i := i + 1;
    }
    assert results[..i] == results;
    r := Ok(grouped);
  }

  /** The row loop of `create_detailed_table`. */
  method EmitDetailRows(groups: seq<Entry<DetailKey, DetailCounter>>) returns (rows: seq<DetailRow>)
    requires forall i :: 0 <= i < |groups| ==> DetailTallied(groups[i].val)
    ensures rows == DetailRows(groups)
  {
    rows := [];
    var i := 0;
    while i < |groups|
      invariant 0 <= i <= |groups| && rows == DetailRows(groups[..i])
    {
      CollectSnocAt(groups, i, DetailRowIf);
      if groups[i].val.successCount > 0 {
        rows := rows + [DetailRowOf(groups[i].key, groups[i].val)];
      }
      i := i + 1;
    }
    assert groups[..i] == groups;
  }

  /**
   * `create_detailed_table(data)` on `data['results']`: the KeyError of the first unreadable
   * result, or the rows of the groups with a success (see DetailTableRows).
   */
  method CreateDetailedTable(results: seq<Record>) returns (r: Result<seq<DetailRow>, KeyError>)
    ensures r.Err? <==> ReadAll(results, DetailView).Err?
    ensures r.Err? ==> r.error == ReadAll(results, DetailView).error
    ensures r.Ok? ==> forall i :: 0 <= i < |DetailGroups(ReadAll(results, DetailView).value)| ==>
                        DetailTallied(DetailGroups(ReadAll(results, DetailView).value)[i].val)
    ensures r.Ok? ==> r.value == DetailRows(DetailGroups(ReadAll(results, DetailView).value))
  {
    var counted := CountDetails(results);
    if counted.Err? {
      return Err(counted.error);
    }
    DetailGroupsTallied(ReadAll(results, DetailView).value);
    var rows := EmitDetailRows(counted.value);
    r := Ok(rows);
  }

  // ---------------------------------------------------------------------------------------------
  // The tables on the results of each driver

  predicate IsUploadFailure(r: Record) { r.scenarioName.None? }

  /** A Python record can be read by both passes unless it is an upload failure, which lacks `scenario_name`. */
  lemma PyViews(r: PyRunner.PyResult)
    ensures SummaryView(FromPy(r)).Err? <==> r.UploadFailed?
    ensures DetailView(FromPy(r)).Err? <==> r.UploadFailed?
    ensures IsUploadFailure(FromPy(r)) <==> r.UploadFailed?
    ensures r.UploadFailed? ==>
              SummaryView(FromPy(r)).error == KeyError("scenario_name") && DetailView(FromPy(r)).error == KeyError("scenario_name")
  {
  }

  /** The saved Python results that fail both passes are exactly the upload failures. */
  lemma PySavedClass(py: seq<PyRunner.PyResult>)
    ensures forall i :: 0 <= i < |py| ==> (IsUploadFailure(PySaved(py)[i]) <==> py[i].UploadFailed?)
    ensures forall i :: 0 <= i < |py| ==> (SummaryView(PySaved(py)[i]).Err? <==> IsUploadFailure(PySaved(py)[i]))
    ensures forall i :: 0 <= i < |py| ==> (DetailView(PySaved(py)[i]).Err? <==> IsUploadFailure(PySaved(py)[i]))
    ensures forall i :: 0 <= i < |py| ==> SummaryView(PySaved(py)[i]).Err? ==> SummaryView(PySaved(py)[i]).error == KeyError("scenario_name")
    ensures forall i :: 0 <= i < |py| ==> DetailView(PySaved(py)[i]).Err? ==> DetailView(PySaved(py)[i]).error == KeyError("scenario_name")
    ensures (exists i :: 0 <= i < |py| && py[i].UploadFailed?) <==> exists i :: 0 <= i < |PySaved(py)| && IsUploadFailure(PySaved(py)[i])
  {
    forall i | 0 <= i < |py| {
      PyViews(py[i]);
    }
  }

  /**
   * `create_summary_table` fails with KeyError('scenario_name') on a Python run exactly when
   * one of its iterations failed to upload.
   */
  lemma PySummaryTable(py: seq<PyRunner.PyResult>)
    ensures ReadAll(PySaved(py), SummaryView).Err? <==> exists i :: 0 <= i < |py| && py[i].UploadFailed?
    ensures ReadAll(PySaved(py), SummaryView).Err? ==> ReadAll(PySaved(py), SummaryView).error == KeyError("scenario_name")
  {
    PySavedClass(py);
    ReadAllClass(PySaved(py), SummaryView, IsUploadFailure, KeyError("scenario_name"));
  }

  /** The same holds for `create_detailed_table`. */
  lemma PyDetailedTable(py: seq<PyRunner.PyResult>)
    ensures ReadAll(PySaved(py), DetailView).Err? <==> exists i :: 0 <= i < |py| && py[i].UploadFailed?
    ensures ReadAll(PySaved(py), DetailView).Err? ==> ReadAll(PySaved(py), DetailView).error == KeyError("scenario_name")
  {
    PySavedClass(py);
    ReadAllClass(PySaved(py), DetailView, IsUploadFailure, KeyError("scenario_name"));
  }

  /** Both tables read every Go run. */
  lemma GoTables(go: seq<GoRunner.GoResult>)
    ensures ReadAll(GoSaved(go), SummaryView).Ok? && ReadAll(GoSaved(go), DetailView).Ok?
  {
    ReadAllFacts(GoSaved(go), SummaryView);
    ReadAllFacts(GoSaved(go), DetailView);
  }
}
