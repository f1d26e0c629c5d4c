/**
 * The upload/download benchmark (bench_updown/main.go): for every run and every selected
 * file it appends 32 random bytes to the file, uploads the result to one node, downloads it
 * from the next node round the ring, unpins it, and records the two durations. A failed read,
 * upload or download records nothing. At the end it groups the records by file name and
 * reports average durations.
 *
 * The HTTP calls are oracles keyed by the attempt; the node called is recorded in a trace.
 */
module BenchUpDown {
  import opened Outcomes
  import opened Text
  import opened Grouping
  import opened Samples
  import opened BenchConfig
  import opened BenchCommon

  // ---------------------------------------------------------------- node selection

  /** The `-nodes` flag; with fewer than one node Go makes no node list, or divides by zero. */
  type NodeCount = n: int | n >= 1 witness 1

  /** `uploadNode := (run - 1) % nodeCount`: an index into the node list. */
  function UploadNode(run: Run, nodeCount: NodeCount): (i: nat)
    ensures i < nodeCount
  {
    (run - 1) % nodeCount
  }

  /** `downloadNode := (uploadNode + 1) % nodeCount`: the next node round the ring. */
  function DownloadNode(run: Run, nodeCount: NodeCount): (i: nat)
    ensures i < nodeCount
  {
    (UploadNode(run, nodeCount) + 1) % nodeCount
  }

  /** Division with a remainder in range has only one remainder. */
  lemma ModUnique(a: int, d: int, q: int, r: int)
    requires d > 0 && a == d * q + r && 0 <= r < d
    ensures a % d == r
  {
    DivUnique(a, d, q, r);
  }

  /** A run downloads from the node the next run uploads to. */
  lemma DownloadIsNextUpload(run: Run, nodeCount: NodeCount)
    ensures DownloadNode(run, nodeCount) == UploadNode(run + 1, nodeCount)
  {
    var u, q := (run - 1) % nodeCount, (run - 1) / nodeCount;
    assert run - 1 == nodeCount * q + u;
    if u + 1 < nodeCount {
      ModUnique(run, nodeCount, q, u + 1);
      ModUnique(u + 1, nodeCount, 0, u + 1);
    } else {
      ModUnique(run, nodeCount, q + 1, 0);
      ModUnique(u + 1, nodeCount, 1, 0);
    }
  }

  /** Node choice repeats every `nodeCount` runs. */
  lemma UploadNodePeriodic(run: Run, nodeCount: NodeCount)
    ensures UploadNode(run + nodeCount, nodeCount) == UploadNode(run, nodeCount)
  {
    var u, q := (run - 1) % nodeCount, (run - 1) / nodeCount;
    assert run - 1 == nodeCount * q + u;
    ModUnique(run - 1 + nodeCount, nodeCount, q + 1, u);
  }

  /** With at least two nodes a run never downloads from the node it uploaded to. */
  lemma NodesDiffer(run: Run, nodeCount: NodeCount)
    requires nodeCount >= 2
    ensures UploadNode(run, nodeCount) != DownloadNode(run, nodeCount)
  {
    var u := UploadNode(run, nodeCount);
    if u + 1 < nodeCount {
      ModUnique(u + 1, nodeCount, 0, u + 1);
    } else {
      ModUnique(u + 1, nodeCount, 1, 0);
    }
  }

  // ---------------------------------------------------------------- readFileWithRandomSuffix

  const SuffixLength: nat := 32

  /** The contents with the random suffix, and their length (`int64(len(data))`). */
  datatype Payload = Payload(data: seq<byte>, size: int)

  /**
   * `readFileWithRandomSuffix`: a failed `os.ReadFile` or `rand.Read` is an error; otherwise the
   * original bytes followed by the 32 random bytes `fill` produced.
   */
  function ReadWithSuffix(original: Option<seq<byte>>, random: Option<nat -> byte>): (r: Option<Payload>)
    ensures r.Some? <==> original.Some? && random.Some?
    ensures r.Some? ==>
      |r.value.data| == |original.value| + SuffixLength && r.value.data[..|original.value|] == original.value
      && r.value.size == |r.value.data|
      && forall i :: 0 <= i < SuffixLength ==> r.value.data[|original.value| + i] == random.value(i)
  {
    match (original, random)
    case (Some(bytes), Some(fill)) =>
      var data := bytes + seq(SuffixLength, i requires 0 <= i => fill(i));
      Some(Payload(data, |data|))
    case _ => None
  }

  // ---------------------------------------------------------------- uploadData

  /** What `uploadData` returns for a reply to its `add` request. */
  function UploadCid(reply: HttpReply): (r: Result<string, UploadError>)
    ensures r.Ok? <==> reply.Reply? && reply.status == 200 && AllDecoded(reply.lines) && LastHash(reply.lines) != ""
    ensures r.Ok? ==> r.value == LastHash(reply.lines)
  {
    match reply
    case NoReply => Err(RequestFailed)
    case Reply(status, lines) =>
      if status != 200 then Err(BadStatus(status))
      else if !AllDecoded(lines) then Err(DecodeFailed)
      else if LastHash(lines) == "" then Err(NoCid)
      else Ok(LastHash(lines))
  }

  /** `uploadData` after the request: the status check, the scanner loop, and the empty-CID check. */
  method UploadData(reply: HttpReply) returns (r: Result<string, UploadError>)
    ensures r == UploadCid(reply)
  {
    if reply.NoReply? {
      return Err(RequestFailed);
    }
    if reply.status != 200 {
      return Err(BadStatus(reply.status));
    }
    var scanned := ScanHashes(reply.lines);
    if scanned.Err? {
      return scanned;
    }
    var cid := scanned.value;
    if cid == "" {
      return Err(NoCid);
    }
    return Ok(cid);
  }

  // ---------------------------------------------------------------- one iteration

  /** What the environment answers for one attempt. */
  datatype UpDownEnv = UpDownEnv(
    contents: Attempt -> Option<seq<byte>>,  // os.ReadFile
    random: Attempt -> Option<nat -> byte>,  // rand.Read into the 32-byte suffix
    upload: Attempt -> HttpReply,            // the reply to the `add` request
    uploadTime: Attempt -> int,              // time.Since around uploadData
    download: Attempt -> Option<int>,        // bytes copied by downloadFile, None on error
    downloadTime: Attempt -> int)            // time.Since around downloadFile

  /** A request to a node, by its index in `nodeAPIs`. */
  datatype NodeCall = AddAt(node: nat) | CatFrom(node: nat, cid: string) | UnpinAt(node: nat, cid: string)

  /** `benchResult`; nodes are reported 1-based; the start time is not modelled. */
  datatype BenchResult = BenchResult(run: Run, fileName: string, sizeBytes: int, uploadNode: int,
                                     downloadNode: int, uploadDuration: int, downloadDuration: int, cid: string)

  /** What one pass of the inner loop appends to `results` and which node requests it makes. */
  datatype Step = Step(result: Option<BenchResult>, calls: seq<NodeCall>)

  /** One pass of the inner loop body of `main`. */
  function Iteration(nodeCount: NodeCount, env: UpDownEnv, a: Attempt): Step
  {
    var up, down := UploadNode(a.run, nodeCount), DownloadNode(a.run, nodeCount);
    match ReadWithSuffix(env.contents(a), env.random(a))
    case None => Step(None, [])
    case Some(payload) =>
      match UploadCid(env.upload(a))
      case Err(_) => Step(None, [AddAt(up)])
      case Ok(cid) =>
        var calls := [AddAt(up), CatFrom(down, cid), UnpinAt(up, cid)];
        if env.download(a).None? then Step(None, calls)
        else
          Step(Some(BenchResult(a.run, a.file, payload.size, up + 1, down + 1,
                                env.uploadTime(a), env.downloadTime(a), cid)), calls)
  }

  function ResultOf(nodeCount: NodeCount, env: UpDownEnv): Attempt -> Option<BenchResult>
  {
    a => Iteration(nodeCount, env, a).result
  }

  function CallsOf(nodeCount: NodeCount, env: UpDownEnv): Attempt -> seq<NodeCall>
  {
    a => Iteration(nodeCount, env, a).calls
  }

  /**
   * A record exists exactly when the read, the upload and the download all succeed; it names the
   * attempt's run and file, the 1-based nodes, the CID the upload returned and the padded size.
   * The upload goes to the upload node; a successful upload is followed by a download from the
   * download node and an unpin at the upload node, whether or not the download succeeds.
   */
  lemma IterationFacts(nodeCount: NodeCount, env: UpDownEnv, a: Attempt)
    ensures var st := Iteration(nodeCount, env, a);
      var up, down := UploadNode(a.run, nodeCount), DownloadNode(a.run, nodeCount);
      var read := ReadWithSuffix(env.contents(a), env.random(a));
      var cid := UploadCid(env.upload(a));
      (st.result.Some? <==> read.Some? && cid.Ok? && env.download(a).Some?)
      && (st.result.Some? ==> st.result.value == BenchResult(a.run, a.file, |env.contents(a).value| + SuffixLength,
                                up + 1, down + 1, env.uploadTime(a), env.downloadTime(a), cid.value))
      && (st.calls == if read.None? then [] else if cid.Err? then [AddAt(up)]
                      else [AddAt(up), CatFrom(down, cid.value), UnpinAt(up, cid.value)])
  {
  }

  /** A record's nodes are in `1..nodeCount`, follow the round-robin rule, and differ when there are two nodes or more. */
  lemma ResultNodes(nodeCount: NodeCount, env: UpDownEnv, a: Attempt)
    requires Iteration(nodeCount, env, a).result.Some?
    ensures var r := Iteration(nodeCount, env, a).result.value;
      r.run == a.run && r.fileName == a.file && r.sizeBytes >= SuffixLength
      && 1 <= r.uploadNode <= nodeCount && 1 <= r.downloadNode <= nodeCount
      && r.uploadNode == (a.run - 1) % nodeCount + 1
      && (nodeCount >= 2 ==> r.uploadNode != r.downloadNode)
  {
    IterationFacts(nodeCount, env, a);
    if nodeCount >= 2 {
      NodesDiffer(a.run, nodeCount);
    }
  }

  /** The inner loop body: read, upload, download, unpin, record. */
  method RunIteration(nodeCount: NodeCount, env: UpDownEnv, a: Attempt) returns (st: Step)
    ensures st == Iteration(nodeCount, env, a)
  {
    var uploadNode := UploadNode(a.run, nodeCount);
    var downloadNode := (uploadNode + 1) % nodeCount;
    var payload := ReadWithSuffix(env.contents(a), env.random(a));
    if payload.None? {
      return Step(None, []);
    }
    var cid := UploadData(env.upload(a));
    if cid.Err? {
      return Step(None, [AddAt(uploadNode)]);
    }
    var calls := [AddAt(uploadNode), CatFrom(downloadNode, cid.value)];
    var downloaded := env.download(a);
    if downloaded.None? {
      return Step(None, calls + [UnpinAt(uploadNode, cid.value)]);
    }
    calls := calls + [UnpinAt(uploadNode, cid.value)];
    var result := BenchResult(a.run, a.file, payload.value.size, uploadNode + 1, downloadNode + 1,
                              env.uploadTime(a), env.downloadTime(a), cid.value);
    return Step(Some(result), calls);
  }

  // ---------------------------------------------------------------- the main loop

  /** The records and node requests of the main loop over the attempts `done`. */
  datatype Progress = Progress(results: seq<BenchResult>, calls: seq<NodeCall>)

  function ProgressOf(nodeCount: NodeCount, env: UpDownEnv, done: seq<Attempt>): Progress
  {
    Progress(Collect(done, ResultOf(nodeCount, env)), FlatMap(done, CallsOf(nodeCount, env)))
  }

  /** One more attempt appends its record, if any, and its requests. */
  lemma ProgressSnoc(nodeCount: NodeCount, env: UpDownEnv, done: seq<Attempt>, a: Attempt)
    ensures var p, st := ProgressOf(nodeCount, env, done), Iteration(nodeCount, env, a);
      ProgressOf(nodeCount, env, done + [a])
        == Progress(p.results + (if st.result.Some? then [st.result.value] else []), p.calls + st.calls)
  {
    CollectSnoc(done, a, ResultOf(nodeCount, env));
    FlatMapSnoc(done, a, CallsOf(nodeCount, env));
  }

  /** The inner loop's step, stated for file `k` of run `run`. */
  lemma FileStep(files: seq<string>, run: Run, k: nat, nodeCount: NodeCount, env: UpDownEnv)
    requires k < |files|
    ensures var done := Attempts(files, run - 1);
      var p, st := ProgressOf(nodeCount, env, done + RunAttempts(files, run, k)), Iteration(nodeCount, env, Attempt(run, k, files[k]));
      ProgressOf(nodeCount, env, done + RunAttempts(files, run, k + 1))
        == Progress(p.results + (if st.result.Some? then [st.result.value] else []), p.calls + st.calls)
  {
    var done, a := Attempts(files, run - 1), Attempt(run, k, files[k]);
    RunAttemptsSnoc(files, run, k);
    AppendAssociates(done, RunAttempts(files, run, k), [a]);
    ProgressSnoc(nodeCount, env, done + RunAttempts(files, run, k), a);
  }

  /** The file loop of one run. */
  method RunFiles(files: seq<string>, run: Run, nodeCount: NodeCount, env: UpDownEnv,
                  results0: seq<BenchResult>, calls0: seq<NodeCall>)
    returns (results: seq<BenchResult>, calls: seq<NodeCall>)
    requires Progress(results0, calls0) == ProgressOf(nodeCount, env, Attempts(files, run - 1))
    ensures Progress(results, calls) == ProgressOf(nodeCount, env, Attempts(files, run))
  {
    results, calls := results0, calls0;
    assert Attempts(files, run - 1) + RunAttempts(files, run, 0) == Attempts(files, run - 1);
    for k := 0 to |files|
      invariant Progress(results, calls)
             == ProgressOf(nodeCount, env, Attempts(files, run - 1) + RunAttempts(files, run, k))
    {
      FileStep(files, run, k, nodeCount, env);
      var st := RunIteration(nodeCount, env, Attempt(run, k, files[k]));
      if st.result.Some? {
        results := results + [st.result.value];
      }
      calls := calls + st.calls;
    }
    AttemptsSnoc(files, run);
  }

  /** The run loop and the file loop of `main` (`runs` from the `-runs` flag, `files` sorted). */
  method RunBenchmark(files: seq<string>, runs: int, nodeCount: NodeCount, env: UpDownEnv)
    returns (results: seq<BenchResult>, calls: seq<NodeCall>)
    ensures Progress(results, calls) == ProgressOf(nodeCount, env, Attempts(files, Passes(runs)))
  {
    results, calls := [], [];
    var run := 1;
    while run <= runs
      invariant 1 <= run <= Passes(runs) + 1
      invariant Progress(results, calls) == ProgressOf(nodeCount, env, Attempts(files, run - 1))
    {
      results, calls := RunFiles(files, run, nodeCount, env, results, calls);
      run := run + 1;
    }
  }

  /**
   * The loop's records: at most one per (run, file) pair, in run order, each for a listed file and
   * a run in `1..runs`, with valid and (for two nodes or more) distinct upload and download nodes.
   */
  lemma BenchmarkResults(files: seq<string>, runs: nat, nodeCount: NodeCount, env: UpDownEnv)
    ensures var results := ProgressOf(nodeCount, env, Attempts(files, runs)).results;
      |results| <= |files| * runs
      && (forall r :: r in results ==>
            r.run <= runs && r.fileName in files && 1 <= r.uploadNode <= nodeCount && 1 <= r.downloadNode <= nodeCount
            && (nodeCount >= 2 ==> r.uploadNode != r.downloadNode))
      && forall i, j :: 0 <= i < j < |results| ==> results[i].run <= results[j].run
  {
    var attempts := Attempts(files, runs);
    var f := ResultOf(nodeCount, env);
    AttemptsAt(files, runs);
    AttemptsRuns(files, runs);
    CollectLength(attempts, f);
    CollectPicked(attempts, f);
    var results := Collect(attempts, f);
    forall r | r in results
      ensures r.run <= runs && r.fileName in files && 1 <= r.uploadNode <= nodeCount && 1 <= r.downloadNode <= nodeCount
              && (nodeCount >= 2 ==> r.uploadNode != r.downloadNode)
    {
      var j :| 0 <= j < |results| && results[j] == r;
      ResultNodes(nodeCount, env, attempts[Picked(attempts, f)[j]]);
    }
    forall i, j | 0 <= i < j < |results|
      ensures results[i].run <= results[j].run
    {
      var pi, pj := Picked(attempts, f)[i], Picked(attempts, f)[j];
      ResultNodes(nodeCount, env, attempts[pi]);
      ResultNodes(nodeCount, env, attempts[pj]);
    }
  }

  // ---------------------------------------------------------------- avgDuration and printSummary

  /** `avgDuration` as a value: 0 for no durations, else the sum divided by the count, truncated toward zero. */
  function Average(durations: seq<int>): int
  {
    if |durations| == 0 then 0 else TruncDiv(SumInt(durations), |durations|)
  }

  /** `avgDuration`: the summing loop and one integer division. */
  method AvgDuration(durations: seq<int>) returns (avg: int)
    ensures avg == Average(durations)
  {
    if |durations| == 0 {
      return 0;
    }
    var sum := 0;
    for i := 0 to |durations|
      invariant sum == SumInt(durations[..i])
    {
      assert durations[..i + 1][..i] == durations[..i];
      sum := sum + durations[i];
    }
    assert durations[..|durations|] == durations;
    if sum >= 0 {
      avg := sum / |durations|;
    } else {
      avg := -((-sum) / |durations|);
    }
  }

  lemma {:induction false} SumIntBounds(ds: seq<int>, lo: int, hi: int)
    requires forall i :: 0 <= i < |ds| ==> lo <= ds[i] <= hi
    ensures |ds| * lo <= SumInt(ds) <= |ds| * hi
  {
    if ds != [] {
      var init := ds[..|ds| - 1];
      assert forall i :: 0 <= i < |init| ==> init[i] == ds[i];
      SumIntBounds(init, lo, hi);
      assert |ds| * lo == |init| * lo + lo && |ds| * hi == |init| * hi + hi;
    }
  }

  /** For non-negative durations, the average lies between the smallest and the largest bound. */
  lemma AverageWithin(ds: seq<int>, lo: int, hi: int)
    requires |ds| > 0 && 0 <= lo && forall i :: 0 <= i < |ds| ==> lo <= ds[i] <= hi
    ensures lo <= Average(ds) <= hi
  {
    SumIntBounds(ds, lo, hi);
    var n, s := |ds|, SumInt(ds);
    var q := s / n;
    assert s == n * q + s % n;
    if q < lo {
      MulNonNegative(n, lo - q - 1);
    }
    if q > hi {
      MulNonNegative(n, q - hi - 1);
    }
  }

  /** The per-file accumulator of `printSummary`. */
  datatype FileTimes = FileTimes(uploadTimes: seq<int>, downloadTimes: seq<int>, size: int)

  /** Go's zero value for a missing map entry. */
  const NoTimes := FileTimes([], [], 0)

  function FileNameOf(r: BenchResult): string
  {
    r.fileName
  }

  /** The loop body of the grouping: append both durations, overwrite the size. */
  function AddTimes(t: FileTimes, r: BenchResult): FileTimes
  {
    FileTimes(t.uploadTimes + [r.uploadDuration], t.downloadTimes + [r.downloadDuration], r.sizeBytes)
  }

  function UploadDurations(rs: seq<BenchResult>): (ds: seq<int>)
    ensures |ds| == |rs| && forall i :: 0 <= i < |rs| ==> ds[i] == rs[i].uploadDuration
  {
    seq(|rs|, i requires 0 <= i < |rs| => rs[i].uploadDuration)
  }

  function DownloadDurations(rs: seq<BenchResult>): (ds: seq<int>)
    ensures |ds| == |rs| && forall i :: 0 <= i < |rs| ==> ds[i] == rs[i].downloadDuration
  {
    seq(|rs|, i requires 0 <= i < |rs| => rs[i].downloadDuration)
  }

  /** Folding `AddTimes` lists the durations in order and keeps the last size seen. */
  lemma {:induction false} FoldTimes(rs: seq<BenchResult>)
    ensures FoldSeq(rs, NoTimes, AddTimes)
         == FileTimes(UploadDurations(rs), DownloadDurations(rs), if rs == [] then 0 else rs[|rs| - 1].sizeBytes)
  {
    if rs != [] {
      FoldTimes(rs[..|rs| - 1]);
    }
  }

  /** The grouping loop of `printSummary`: `stats := fileStats[r.FileName]; ...; fileStats[r.FileName] = stats`. */
  method GroupByFile(results: seq<BenchResult>) returns (stats: map<string, FileTimes>)
    ensures stats == MapGroupInto(results, FileNameOf, NoTimes, AddTimes)
  {
    stats := map[];
    for i := 0 to |results|
      invariant stats == MapGroupInto(results[..i], FileNameOf, NoTimes, AddTimes)
    {
      assert results[..i + 1][..i] == results[..i];
      var r := results[i];
      var entry := if r.fileName in stats then stats[r.fileName] else NoTimes;
      entry := FileTimes(entry.uploadTimes + [r.uploadDuration], entry.downloadTimes + [r.downloadDuration], r.sizeBytes);
      stats := stats[r.fileName := entry];
    }
    assert results[..|results|] == results;
  }

  /**
   * One entry per file name that occurs; its duration lists are that file's records' durations
   * in order, and its size is the size of the file's last record.
   */
  lemma GroupByFileContents(results: seq<BenchResult>, name: string)
    ensures var stats, mine := MapGroupInto(results, FileNameOf, NoTimes, AddTimes), Filter(results, FileNameOf, name);
      (name in stats <==> |mine| > 0) && (|mine| > 0 <==> exists r :: r in results && r.fileName == name)
      && (|mine| > 0 ==>
            stats[name] == FileTimes(UploadDurations(mine), DownloadDurations(mine), mine[|mine| - 1].sizeBytes))
  {
    var mine := Filter(results, FileNameOf, name);
    MapGroupFind(results, FileNameOf, NoTimes, AddTimes, name);
    FilterMembers(results, FileNameOf, name);
    FoldTimes(mine);
    if exists r :: r in results && r.fileName == name {
      var r :| r in results && r.fileName == name;
      assert r in mine;
    }
  }

  /** One printed summary line: size and the average upload, download and total durations. */
  datatype SummaryRow = SummaryRow(size: int, avgUpload: int, avgDownload: int, avgTotal: int)

  function RowOf(t: FileTimes): SummaryRow
  {
    var up, down := Average(t.uploadTimes), Average(t.downloadTimes);
    SummaryRow(t.size, up, down, up + down)
  }

  /** The lines `printSummary` prints, by file; no results print nothing. Go visits the map in no fixed order. */
  function Summary(results: seq<BenchResult>): map<string, SummaryRow>
  {
    if results == [] then map[]
    else
      var stats := MapGroupInto(results, FileNameOf, NoTimes, AddTimes);
      map name | name in stats :: RowOf(stats[name])
  }

  /** `printSummary`: group by file, then average each file's durations. */
  method PrintSummary(results: seq<BenchResult>) returns (rows: map<string, SummaryRow>)
    ensures rows == Summary(results)
  {
    if |results| == 0 {
      return map[];
    }
    var stats := GroupByFile(results);
    rows := map name | name in stats :: RowOf(stats[name]);
  }

  /**
   * Each file's line averages exactly that file's durations, and the total is the sum of the two
   * averages; for non-negative durations the upload average lies within that file's uploads.
   */
  lemma SummaryRowFacts(results: seq<BenchResult>, name: string)
    requires name in Summary(results)
    ensures var mine := Filter(results, FileNameOf, name);
      var row := Summary(results)[name];
      |mine| > 0 && row.avgUpload == Average(UploadDurations(mine)) && row.avgDownload == Average(DownloadDurations(mine))
      && row.avgTotal == row.avgUpload + row.avgDownload && row.size == mine[|mine| - 1].sizeBytes
  {
    GroupByFileContents(results, name);
  }

  // ---------------------------------------------------------------- main

  /** With at least one file, the total of attempts is negative exactly when the run count is. */
  lemma NegativeTotal(n: nat, runs: int)
    requires n >= 1
    ensures n * runs < 0 <==> runs < 0
  {
    if runs < 0 {
      assert n * runs <= runs;
    }
  }

  /**
   * Why `main` stops early: no selected file or a failed CSV write (status 1), or a runtime
   * panic, which `make` raises for a negative length or capacity and `%` for a zero divisor.
   */
  datatype Exit = NoFiles | CsvFailed | Panic

  /** What a completed `main` leaves behind: the records (written to the CSV) and the summary lines. */
  datatype Report = Report(files: seq<string>, results: seq<BenchResult>, calls: seq<NodeCall>,
                           summary: map<string, SummaryRow>)

  /**
   * `main` after flag parsing: select the files (no files exits), build the node list, size
   * the result list, run the benchmark, write the CSV (a write failure exits after the runs),
   * then print the summary. `nodes` and `runs` are the `-nodes` and `-runs` flags as parsed:
   * a negative node count panics in `make`, and so does a negative run count, whose total of
   * attempts is a negative capacity; no node with a run to do panics on the first `%`.
   * `csvOk` is the CSV writer's outcome and `csvPath` the `-csv` flag (empty skips the CSV).
   */
  method Benchmark(entries: seq<DirEntry>, includeFlag: string, glob: (string, string) -> MatchOutcome,
                   runs: int, nodes: int, env: UpDownEnv, csvPath: string, csvOk: bool)
    returns (outcome: Result<Report, Exit>)
    ensures var files := SelectedFiles(entries, Patterns(includeFlag), glob);
      outcome == if files == [] then Err(NoFiles)
                 else if nodes < 0 || runs < 0 || (nodes == 0 && runs > 0) then Err(Panic)
                 else if csvPath != "" && !csvOk then Err(CsvFailed)
                 else if runs == 0 then Ok(Report(files, [], [], Summary([])))
                 else
                   var p := ProgressOf(nodes, env, Attempts(files, runs));
                   Ok(Report(files, p.results, p.calls, Summary(p.results)))
  {
    var patterns := SplitPatterns(includeFlag);
    var files := SelectFiles(entries, patterns, glob);
    if |files| == 0 {
      return Err(NoFiles);
    }
    if nodes < 0 {
      return Err(Panic);
    }
    var totalOps := |files| * runs;
    NegativeTotal(|files|, runs);
    if totalOps < 0 {
      return Err(Panic);
    }
    var results: seq<BenchResult>, calls: seq<NodeCall> := [], [];
    if runs > 0 {
      if nodes == 0 {
        return Err(Panic);
      }
      results, calls := RunBenchmark(files, runs, nodes, env);
    }
    if csvPath != "" && !csvOk {
      return Err(CsvFailed);
    }
    var summary := PrintSummary(results);
    return Ok(Report(files, results, calls, summary));
  }
}
