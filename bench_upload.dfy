/**
 * The upload-only benchmark (main.go): every selected file is uploaded `runs` times, run by
 * run, and any stat or upload failure ends the program, so a finished run holds one record per
 * (run, file) pair. The totals of sizes and durations and the average throughput close the run.
 *
 * `formatThroughput` is modelled twice: as written, where a rate of 1024^7 B/s or more indexes
 * past the last unit letter, and corrected, stopping at the last unit; the rest of the model
 * uses the corrected one.
 */
module BenchUpload {
  import opened Outcomes
  import opened Text
  import opened Grouping
  import opened Samples
  import opened BenchCommon

  // ---------------------------------------------------------------- uploadFile

  /**
   * What `uploadFile` returns: no reply (opening the file, building or sending the request
   * failed), a bad status, an undecodable line, a scanner error after the lines it delivered,
   * or no non-empty `Hash`; otherwise the last non-empty `Hash`.
   */
  function UploadFileCid(reply: HttpReply, streamFailed: bool): (r: Result<string, UploadError>)
    ensures r.Ok? <==> reply.Reply? && reply.status == 200 && AllDecoded(reply.lines) && !streamFailed
                        && LastHash(reply.lines) != ""
    ensures r.Ok? ==> r.value == LastHash(reply.lines)
    ensures reply.Reply? && reply.status == 200 && AllDecoded(reply.lines) && streamFailed ==> r == Err(StreamFailed)
  {
    match reply
    case NoReply => Err(RequestFailed)
    case Reply(status, lines) =>
      if status != 200 then Err(BadStatus(status))
      else if !AllDecoded(lines) then Err(DecodeFailed)
      else if streamFailed then Err(StreamFailed)
      else if LastHash(lines) == "" then Err(NoCid)
      else Ok(LastHash(lines))
  }

  /** `uploadFile` after the request: the status check, the scanner loop, `scanner.Err()`, the empty-CID check. */
  method UploadFile(reply: HttpReply, streamFailed: bool) returns (r: Result<string, UploadError>)
    ensures r == UploadFileCid(reply, streamFailed)
  {
    if reply.NoReply? {
      return Err(RequestFailed);
    }
    if reply.status != 200 {
      return Err(BadStatus(reply.status));
    }
    var scanned := ScanHashes(reply.lines);
    if scanned.Err? {
      return scanned;
    }
    if streamFailed {
      return Err(StreamFailed);
    }
    var cid := scanned.value;
    if cid == "" {
      return Err(NoCid);
    }
    return Ok(cid);
  }

  // ---------------------------------------------------------------- the upload loop

  /** What the environment answers for one attempt. */
  datatype UploadEnv = UploadEnv(
    stat: Attempt -> Option<int>,    // fileSize (os.Stat); None on error
    reply: Attempt -> HttpReply,     // the reply to the `add` request
    streamFailed: Attempt -> bool,   // scanner.Err() after the delivered lines
    duration: Attempt -> int)        // time.Since around uploadFile

  /** `benchResult`; the start time is not modelled. */
  datatype UploadResult = UploadResult(run: Run, fileName: string, sizeBytes: int, duration: int, cid: string)

  /** Why `main` exits with status 1. */
  datatype Exit =
    | NoFiles
    | BadRuns(runs: int)
    | StatFailed(at: Attempt)
    | UploadFailed(at: Attempt, error: UploadError)
    | CsvFailed

  /** One pass of the inner loop body: stat, upload, record. */
  function Upload(env: UploadEnv, a: Attempt): Result<UploadResult, Exit>
  {
    match env.stat(a)
    case None => Err(StatFailed(a))
    case Some(size) =>
      match UploadFileCid(env.reply(a), env.streamFailed(a))
      case Err(e) => Err(UploadFailed(a, e))
      case Ok(cid) => Ok(UploadResult(a.run, a.file, size, env.duration(a), cid))
  }

  /** The results after the attempts `done`, or the exit of the first attempt that failed. */
  function UploadsOf(env: UploadEnv, done: seq<Attempt>): Result<seq<UploadResult>, Exit>
  {
    if done == [] then Ok([])
    else
      match UploadsOf(env, done[..|done| - 1])
      case Err(e) => Err(e)
      case Ok(rs) =>
        match Upload(env, done[|done| - 1])
        case Err(e) => Err(e)
        case Ok(r) => Ok(rs + [r])
  }

  /** Once the program has exited, later attempts change nothing. */
  lemma {:induction false} UploadsSticks(env: UploadEnv, done: seq<Attempt>, more: seq<Attempt>)
    requires UploadsOf(env, done).Err?
    ensures UploadsOf(env, done + more) == UploadsOf(env, done)
    decreases |more|
  {
    if more == [] {
      assert done + more == done;
    } else {
      var init := more[..|more| - 1];
      UploadsSticks(env, done, init);
      assert (done + more)[..|done + more| - 1] == done + init;
    }
  }

  /** An exit during run `k` is the program's exit, however many runs were asked for. */
  lemma {:induction false} ExitFinal(env: UploadEnv, files: seq<string>, k: nat, runs: nat)
    requires k <= runs && UploadsOf(env, Attempts(files, k)).Err?
    ensures UploadsOf(env, Attempts(files, runs)) == UploadsOf(env, Attempts(files, k))
    decreases runs
  {
    if k < runs {
      ExitFinal(env, files, k, runs - 1);
      AttemptsSnoc(files, runs);
      UploadsSticks(env, Attempts(files, runs - 1), RunAttempts(files, runs, |files|));
    }
  }

  /** The inner loop's step, stated for file `k` of run `run`. */
  lemma FileStep(env: UploadEnv, files: seq<string>, run: Run, k: nat)
    requires k < |files|
    ensures var done := Attempts(files, run - 1) + RunAttempts(files, run, k);
      UploadsOf(env, done + [Attempt(run, k, files[k])])
        == UploadsOf(env, Attempts(files, run - 1) + RunAttempts(files, run, k + 1))
  {
    RunAttemptsSnoc(files, run, k);
    AppendAssociates(Attempts(files, run - 1), RunAttempts(files, run, k), [Attempt(run, k, files[k])]);
  }

  /** The file loop of one run; a failure ends the program with that failure. */
  method UploadRun(files: seq<string>, run: Run, env: UploadEnv, results0: seq<UploadResult>)
    returns (r: Result<seq<UploadResult>, Exit>)
    requires UploadsOf(env, Attempts(files, run - 1)) == Ok(results0)
    ensures r == UploadsOf(env, Attempts(files, run))
  {
    var results := results0;
    assert Attempts(files, run - 1) + RunAttempts(files, run, 0) == Attempts(files, run - 1);
    for k := 0 to |files|
      invariant UploadsOf(env, Attempts(files, run - 1) + RunAttempts(files, run, k)) == Ok(results)
    {
      var a := Attempt(run, k, files[k]);
      ghost var done := Attempts(files, run - 1) + RunAttempts(files, run, k);
      FileStep(env, files, run, k);
      assert (done + [a])[..|done + [a]| - 1] == done;
      var size := env.stat(a);
      if size.None? {
        UploadsSticks(env, done + [a], RunAttempts(files, run, |files|)[k + 1..]);
        ProperRest(files, run, k);
        return Err(StatFailed(a));
      }
      var cid := UploadFile(env.reply(a), env.streamFailed(a));
      if cid.Err? {
        UploadsSticks(env, done + [a], RunAttempts(files, run, |files|)[k + 1..]);
        ProperRest(files, run, k);
        return Err(UploadFailed(a, cid.error));
      }
      results := results + [UploadResult(run, a.file, size.value, env.duration(a), cid.value)];
    }
    AttemptsSnoc(files, run);
    return Ok(results);
  }

  /** The attempts of a run are those up to file `k`, then the rest. */
  lemma ProperRest(files: seq<string>, run: Run, k: nat)
    requires k < |files|
    ensures (Attempts(files, run - 1) + RunAttempts(files, run, k) + [Attempt(run, k, files[k])])
              + RunAttempts(files, run, |files|)[k + 1..] == Attempts(files, run)
  {
    var all := RunAttempts(files, run, |files|);
    assert RunAttempts(files, run, k) + [Attempt(run, k, files[k])] + all[k + 1..] == all;
    AttemptsSnoc(files, run);
  }

  /** The run loop and the file loop of `main`, once `runs` has been checked to be positive. */
  method UploadAll(files: seq<string>, runs: Run, env: UploadEnv) returns (r: Result<seq<UploadResult>, Exit>)
    ensures r == UploadsOf(env, Attempts(files, runs))
  {
    var results := [];
    var run := 1;
    while run <= runs
      invariant 1 <= run <= runs + 1
      invariant UploadsOf(env, Attempts(files, run - 1)) == Ok(results)
    {
      var step := UploadRun(files, run, env, results);
      if step.Err? {
        ExitFinal(env, files, run, runs);
        return step;
      }
      results := step.value;
      run := run + 1;
    }
    return Ok(results);
  }

  /** A run that does not exit keeps one record per attempt, each from its own attempt. */
  lemma {:induction false} UploadsOkAt(env: UploadEnv, done: seq<Attempt>)
    requires UploadsOf(env, done).Ok?
    ensures var rs := UploadsOf(env, done).value;
      |rs| == |done| && forall k :: 0 <= k < |done| ==> Upload(env, done[k]) == Ok(rs[k])
  {
    if done != [] {
      var init := done[..|done| - 1];
      UploadsOkAt(env, init);
      assert forall k :: 0 <= k < |init| ==> init[k] == done[k];
    }
  }

  /**
   * A completed benchmark has exactly `len(files) * runs` records, run-major and file-minor: the
   * k-th is file `k % len(files)` of run `k / len(files) + 1`, with that attempt's size, duration and CID.
   */
  lemma CompletedRun(env: UploadEnv, files: seq<string>, runs: nat)
    requires UploadsOf(env, Attempts(files, runs)).Ok?
    ensures var rs := UploadsOf(env, Attempts(files, runs)).value;
      |rs| == |files| * runs
      && forall k :: 0 <= k < |rs| ==>
           var a := Attempt(k / |files| + 1, k % |files|, files[k % |files|]);
           rs[k].run == k / |files| + 1 && rs[k].fileName == files[k % |files|]
           && env.stat(a).Some? && rs[k].sizeBytes == env.stat(a).value && rs[k].duration == env.duration(a)
           && UploadFileCid(env.reply(a), env.streamFailed(a)) == Ok(rs[k].cid)
  {
    AttemptsAt(files, runs);
    UploadsOkAt(env, Attempts(files, runs));
  }

  /** An exit is the failure of one of the attempts made. */
  lemma {:induction false} ExitCause(env: UploadEnv, done: seq<Attempt>)
    requires UploadsOf(env, done).Err?
    ensures exists k :: 0 <= k < |done| && Upload(env, done[k]) == Err(UploadsOf(env, done).error)
  {
    var init := done[..|done| - 1];
    if UploadsOf(env, init).Err? {
      ExitCause(env, init);
      var k :| 0 <= k < |init| && Upload(env, init[k]) == Err(UploadsOf(env, init).error);
      assert init[k] == done[k];
    } else {
      assert Upload(env, done[|done| - 1]) == Err(UploadsOf(env, done).error);
    }
  }

  // ---------------------------------------------------------------- totals

  function Sizes(rs: seq<UploadResult>): (s: seq<int>)
    ensures |s| == |rs| && forall i :: 0 <= i < |rs| ==> s[i] == rs[i].sizeBytes
  {
    seq(|rs|, i requires 0 <= i < |rs| => rs[i].sizeBytes)
  }

  function Durations(rs: seq<UploadResult>): (s: seq<int>)
    ensures |s| == |rs| && forall i :: 0 <= i < |rs| ==> s[i] == rs[i].duration
  {
    seq(|rs|, i requires 0 <= i < |rs| => rs[i].duration)
  }

  /** The totals loop: `totalBytes += r.SizeBytes; totalDuration += r.Duration`. */
  method Totals(results: seq<UploadResult>) returns (totalBytes: int, totalDuration: int)
    ensures totalBytes == SumInt(Sizes(results)) && totalDuration == SumInt(Durations(results))
  {
    totalBytes, totalDuration := 0, 0;
    for i := 0 to |results|
      invariant totalBytes == SumInt(Sizes(results[..i])) && totalDuration == SumInt(Durations(results[..i]))
    {
      assert Sizes(results[..i + 1])[..i] == Sizes(results[..i]);
      assert Durations(results[..i + 1])[..i] == Durations(results[..i]);
      totalBytes := totalBytes + results[i].sizeBytes;
      totalDuration := totalDuration + results[i].duration;
    }
    assert results[..|results|] == results;
  }

  /** With non-negative values, every record contributes to the totals: none exceeds its total. */
  lemma {:induction false} SumIntCovers(s: seq<int>, k: nat)
    requires k < |s| && forall i :: 0 <= i < |s| ==> s[i] >= 0
    ensures 0 <= s[k] <= SumInt(s)
  {
    var init := s[..|s| - 1];
    assert forall i :: 0 <= i < |init| ==> init[i] == s[i];
    if k < |s| - 1 {
      SumIntCovers(init, k);
    } else {
      SumIntNonNegative(init);
    }
  }

  lemma {:induction false} SumIntNonNegative(s: seq<int>)
    requires forall i :: 0 <= i < |s| ==> s[i] >= 0
    ensures SumInt(s) >= 0
  {
    if s != [] {
      var init := s[..|s| - 1];
      assert forall i :: 0 <= i < |init| ==> init[i] == s[i];
      SumIntNonNegative(init);
    }
  }

  // ---------------------------------------------------------------- formatThroughput

  /** A throughput as `formatThroughput` renders it; `IndexPanic` is Go's index-out-of-range panic. */
  datatype Rate =
    | NotAvailable                                   // "n/a"
    | PlainRate(bytesPerSecond: real)                // "%.0f B"
    | ScaledRate(value: real, exp: nat, prefix: char) // "%.2f %ciB"
    | IndexPanic(exp: nat)                           // "KMGTPE"[exp] with exp >= 6

  function RealPow1024(k: nat): (p: real)
    ensures p >= 1.0
  {
    if k == 0 then 1.0 else 1024.0 * RealPow1024(k - 1)
  }

  lemma {:induction false} RealPow1024Grows(i: nat, j: nat)
    requires i <= j
    ensures RealPow1024(i) <= RealPow1024(j)
    decreases j
  {
    if i < j {
      RealPow1024Grows(i, j - 1);
    }
  }

  /** `float64(size) / duration.Seconds()`, for a positive duration. */
  function BytesPerSecond(size: int, duration: int): real
    requires duration > 0
  {
    size as real / Seconds(duration)
  }

  /** Dividing by 1024 lowers the integer part of a value of at least 1024. */
  lemma FloorShrinks(n: real)
    requires n >= 1024.0
    ensures (n / 1024.0).Floor < n.Floor
  {
    assert n / 1024.0 <= n - 1.0;
  }

  /** One pass of the unit loop keeps `n * div == rate` and leaves `div` within the rate. */
  lemma ScaleStep(rate: real, n: real, div: real)
    requires div > 0.0 && n >= 1024.0 && n * div == rate
    ensures (n / 1024.0) * (div * 1024.0) == rate && div * 1024.0 <= rate
  {
    assert div * 1024.0 <= div * n;
  }

  /** When the loop stops, the rate is below the next unit. */
  lemma ScaleExit(rate: real, n: real, div: real)
    requires div > 0.0 && n < 1024.0 && n * div == rate
    ensures rate < div * 1024.0
  {
    assert n * div < 1024.0 * div;
  }

  /**
   * The loop of `formatThroughput` from `n = rate / 1024`: it leaves `div = 1024^(exp+1)` with
   * `div <= rate < div * 1024` (and, when `capped`, stops at `exp = 5` instead).
   */
  method UnitLoop(rate: real, capped: bool) returns (div: real, exp: nat)
    requires rate >= 1024.0
    ensures div == RealPow1024(exp + 1) && div <= rate
    ensures capped ==> exp <= 5
    ensures rate < div * 1024.0 || (capped && exp == 5)
  {
    div, exp := 1024.0, 0;
    var n := rate / 1024.0;
    while n >= 1024.0 && (!capped || exp < 5)
      invariant div == RealPow1024(exp + 1) && div <= rate && n * div == rate
      invariant capped ==> exp <= 5
      decreases n.Floor
    {
      FloorShrinks(n);
      ScaleStep(rate, n, div);
      div := div * 1024.0;
      exp := exp + 1;
      n := n / 1024.0;
    }
    if n < 1024.0 {
      ScaleExit(rate, n, div);
    }
  }

  /** `formatThroughput` as written: the unit index is not bounded, so `"KMGTPE"[exp]` panics for `exp >= 6`. */
  method FormatThroughputAsWritten(size: int, duration: int) returns (r: Rate)
    ensures duration <= 0 ==> r == NotAvailable
    ensures duration > 0 && BytesPerSecond(size, duration) < 1024.0 ==> r == PlainRate(BytesPerSecond(size, duration))
    ensures duration > 0 && BytesPerSecond(size, duration) >= 1024.0 ==>
      var rate := BytesPerSecond(size, duration);
      (r.ScaledRate? || r.IndexPanic?) && (r.IndexPanic? <==> r.exp >= |UnitPrefixes|)
      && RealPow1024(r.exp + 1) <= rate < RealPow1024(r.exp + 2)
      && (r.ScaledRate? ==> r.value == rate / RealPow1024(r.exp + 1) && r.prefix == UnitPrefixes[r.exp])
  {
    if duration <= 0 {
      return NotAvailable;
    }
    var rate := size as real / Seconds(duration);
    if rate < 1024.0 {
      return PlainRate(rate);
    }
    var div, exp := UnitLoop(rate, false);
    if exp >= |UnitPrefixes| {
      return IndexPanic(exp);
    }
    return ScaledRate(rate / div, exp, UnitPrefixes[exp]);
  }

  /**
   * A rate that reaches the as-written failure: 2^62 bytes (an `int64` size) in one nanosecond.
   * Any exponent bracketing that rate is past the last of the six unit letters.
   */
  lemma ThroughputOutOfRange(e: nat)
    requires RealPow1024(e + 1) <= BytesPerSecond(0x4000_0000_0000_0000, 1) < RealPow1024(e + 2)
    ensures e >= |UnitPrefixes|
  {
    assert BytesPerSecond(0x4000_0000_0000_0000, 1) >= RealPow1024(7);
    if e < 6 {
      RealPow1024Grows(e + 2, 7);
    }
  }

  /**
   * `formatThroughput` with the unit loop stopped at the last letter: any rate of 1024 B/s or more
   * gets a valid letter; below 1024^7 B/s the exponent brackets the rate as in the as-written code,
   * beyond it the value is expressed in EiB.
   */
  method FormatThroughput(size: int, duration: int) returns (r: Rate)
    ensures duration <= 0 ==> r == NotAvailable
    ensures duration > 0 && BytesPerSecond(size, duration) < 1024.0 ==> r == PlainRate(BytesPerSecond(size, duration))
    ensures duration > 0 && BytesPerSecond(size, duration) >= 1024.0 ==>
      var rate := BytesPerSecond(size, duration);
      r.ScaledRate? && r.exp < |UnitPrefixes| && r.prefix == UnitPrefixes[r.exp]
      && RealPow1024(r.exp + 1) <= rate && r.value == rate / RealPow1024(r.exp + 1)
      && (rate < RealPow1024(7) ==> rate < RealPow1024(r.exp + 2))
  {
    if duration <= 0 {
      return NotAvailable;
    }
    var rate := size as real / Seconds(duration);
    if rate < 1024.0 {
      return PlainRate(rate);
    }
    var div, exp := UnitLoop(rate, true);
    return ScaledRate(rate / div, exp, UnitPrefixes[exp]);
  }

  // ---------------------------------------------------------------- main

  /** What a completed `main` leaves behind: the records (written to the CSV), the totals and their rate. */
  datatype Report = Report(files: seq<string>, results: seq<UploadResult>, totalBytes: int, totalDuration: int, rate: Rate)

  /**
   * `main` after flag parsing: select the files (no files exits), check `runs` (a non-positive
   * value exits before any upload), upload (any failure exits), total, then write the CSV when
   * its trimmed path is not empty (a write failure exits). `csvOk` is the CSV writer's outcome.
   */
  method Benchmark(entries: seq<DirEntry>, includeFlag: string, glob: (string, string) -> MatchOutcome,
                   runs: int, env: UploadEnv, csvPath: string, csvOk: bool)
    returns (outcome: Result<Report, Exit>)
    ensures var files := SelectedFiles(entries, Patterns(includeFlag), glob);
      files == [] ==> outcome == Err(NoFiles)
    ensures var files := SelectedFiles(entries, Patterns(includeFlag), glob);
      files != [] && runs <= 0 ==> outcome == Err(BadRuns(runs))
    ensures var files := SelectedFiles(entries, Patterns(includeFlag), glob);
      files != [] && runs > 0 ==>
        var up := UploadsOf(env, Attempts(files, runs));
        (up.Err? ==> outcome == Err(up.error))
        && (up.Ok? && TrimSpace(csvPath) != "" && !csvOk ==> outcome == Err(CsvFailed))
        && (up.Ok? && (TrimSpace(csvPath) == "" || csvOk) ==>
              outcome.Ok? && outcome.value.files == files && outcome.value.results == up.value
              && outcome.value.totalBytes == SumInt(Sizes(up.value))
              && outcome.value.totalDuration == SumInt(Durations(up.value)))
  {
    var patterns := SplitPatterns(includeFlag);
    var files := SelectFiles(entries, patterns, glob);
    if |files| == 0 {
      return Err(NoFiles);
    }
    if runs <= 0 {
      return Err(BadRuns(runs));
    }
    var uploads := UploadAll(files, runs, env);
    if uploads.Err? {
      return Err(uploads.error);
    }
    var totalBytes, totalDuration := Totals(uploads.value);
    var rate := FormatThroughput(totalBytes, totalDuration);
    if TrimSpace(csvPath) != "" && !csvOk {
      return Err(CsvFailed);
    }
    return Ok(Report(files, uploads.value, totalBytes, totalDuration, rate));
  }
}
