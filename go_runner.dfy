/**
 * The Go bandwidth driver (`cmd/bandwidth-test/main.go`): random payloads generated in
 * chunks, shaping through a bulk or a per-container script whose failures are only logged,
 * one upload and one download per iteration, nearest-rank statistics over a slice sorted in
 * place, the scenario loop accumulating `results`, and the per-file summary it displays.
 */
module GoRunner {
  import opened Outcomes
  import opened Samples
  import opened Grouping
  import opened Text
  import opened BenchConfig

  const StopScript := "/app/scripts/network-chaos/stop-chaos.sh"
  const BulkAllScript := "limit-bandwidth-all.sh"
  const BulkRoutersScript := "limit-bandwidth-routers.sh"
  const FirstContainer := "ipfs-org1"

  /** Every container the per-container scripts are applied to and removed from, in order. */
  const AllContainers: seq<string> := ["ipfs-org1", "ipfs-org2", "ipfs-org3", "ipfs-org4", "ipfs-org5",
                                       "ipfs-org6", "ipfs-org7", "ipfs-org8", "ipfs-org9", "ipfs-org10",
                                       "ipfs-bench"]

  /** The size of the buffer `generateRandomData` fills per round. */
  const BufSize := 1024 * 1024

  // ---------------------------------------------------------------- random payload

  /** The number of rounds of the generation loop: one per started buffer. */
  function Chunks(size: nat): (n: nat)
    ensures forall d: nat :: d < n <==> d * BufSize < size
  {
    var n := (size + BufSize - 1) / BufSize;
    assert n * BufSize < size + BufSize && size <= n * BufSize;
    ChunkBound(size, n);
    n
  }

  lemma ChunkBound(size: nat, n: nat)
    requires n * BufSize < size + BufSize && size <= n * BufSize
    ensures forall d: nat :: d < n <==> d * BufSize < size
  {
    forall d: nat
      ensures d < n <==> d * BufSize < size
    {
      if d < n {
        assert d * BufSize <= (n - 1) * BufSize;
      } else {
        assert d * BufSize >= n * BufSize;
      }
    }
  }

  /** Whether every read of the random source, one per round, succeeds. */
  predicate ReadsSucceed(size: int, readOk: nat -> bool)
  {
    size <= 0 || forall d :: 0 <= d < Chunks(size) ==> readOk(d)
  }

  /**
   * `generateRandomData`: round `d` reads `min(BufSize, size - d * BufSize)` random bytes
   * (`readOk(d)` says whether the read succeeds, `fill(d, j)` is its `j`-th byte) and copies
   * them to offset `d * BufSize`, so every byte of the result is written by exactly one round.
   * `make` panics on a negative size, hence the natural `size`.
   */
  method GenerateRandomData(size: nat, readOk: nat -> bool, fill: (nat, nat) -> byte) returns (r: Option<array<byte>>)
    ensures r.None? <==> !ReadsSucceed(size, readOk)
    ensures r.Some? ==> fresh(r.value) && r.value.Length == size
                        && forall k :: 0 <= k < size ==> r.value[k] == fill(k / BufSize, k % BufSize)
  {
    var data := new byte[size];
    var i := 0;
    var round := 0;
    while i < size
      invariant i == round * BufSize && (round == 0 || i - BufSize < size)
      invariant forall d :: 0 <= d < round ==> readOk(d)
      invariant forall k :: 0 <= k < i && k < size ==> data[k] == fill(k / BufSize, k % BufSize)
    {
      var remaining := size - i;
      var bufLen := if remaining < BufSize then remaining else BufSize;
      if !readOk(round) {
        assert round < Chunks(size);
        return None;
      }
      forall j | i <= j < i + bufLen {
        data[j] := fill(round, j - i);
      }
      ChunkOffsets(round, i, bufLen);
      i := i + BufSize;
      round := round + 1;
    }
    assert round >= Chunks(size) by {
      if round > 0 {
        assert (round - 1) * BufSize < size;
      }
    }
    return Some(data);
  }

  /** Within round `d`, offset `k` has round `k / BufSize` and position `k % BufSize`. */
  lemma ChunkOffsets(d: nat, i: nat, len: nat)
    requires i == d * BufSize && len <= BufSize
    ensures forall k :: i <= k < i + len ==> k / BufSize == d && k % BufSize == k - i
  {
    forall k | i <= k < i + len
      ensures k / BufSize == d && k % BufSize == k - i
    {
      assert k == d * BufSize + (k - i) && 0 <= k - i < BufSize;
    }
  }

  // ---------------------------------------------------------------- shaping

  /** A scenario script that shapes every container, or every router, in one call. */
  predicate IsBulkScript(command: string)
  {
    Contains(command, BulkAllScript) || Contains(command, BulkRoutersScript)
  }

  /**
   * `applyBandwidthLimit` for one container, its commands occupying trace positions from
   * `pos` on; `ok` is a nil error. No bandwidth: nothing. A bulk script runs once, for the
   * first container, with the bandwidth alone; for any other container it does nothing.
   * Otherwise the stop script runs unchecked, then the scenario script for the container.
   */
  function ApplyBandwidthLimit(s: Scenario, container: string, exitOk: ExitOracle, pos: nat): (r: Shaping)
    ensures s.bandwidth.None? ==> r == Shaping([], true)
    ensures s.bandwidth.Some? && IsBulkScript(s.bandwidthCommand) ==>
              r.issued == (if container == FirstContainer then [BulkLimit(s.bandwidthCommand, s.bandwidth.value)] else [])
              && (r.ok <==> container != FirstContainer || exitOk(pos, r.issued[0]))
    ensures s.bandwidth.Some? && !IsBulkScript(s.bandwidthCommand) ==>
              r.issued == [Stop(StopScript, container), Limit(s.bandwidthCommand, container, s.bandwidth.value)]
              && (r.ok <==> exitOk(pos + 1, r.issued[1]))
  {
    match s.bandwidth
    case None => Shaping([], true)
    case Some(bw) =>
      if IsBulkScript(s.bandwidthCommand) then
        if container == FirstContainer then
          var bulk := BulkLimit(s.bandwidthCommand, bw);
          Shaping([bulk], exitOk(pos, bulk))
        else Shaping([], true)
      else
        var limit := Limit(s.bandwidthCommand, container, bw);
        Shaping([Stop(StopScript, container), limit], exitOk(pos + 1, limit))
  }

  /**
   * The legacy loop over containers: every container is shaped whatever the earlier calls
   * returned; `ok` says that no warning was logged.
   */
  function ApplyToContainers(s: Scenario, cs: seq<string>, exitOk: ExitOracle, pos: nat): (r: Shaping)
  {
    if cs == [] then Shaping([], true)
    else
      var prev := ApplyToContainers(s, cs[..|cs| - 1], exitOk, pos);
      var step := ApplyBandwidthLimit(s, cs[|cs| - 1], exitOk, pos + |prev.issued|);
      Shaping(prev.issued + step.issued, prev.ok && step.ok)
  }

  /** The shaping of `runScenarioTests`: one bulk call for the first container, or the legacy loop. */
  function ShapeScenario(s: Scenario, exitOk: ExitOracle, pos: nat): Shaping
  {
    if IsBulkScript(s.bandwidthCommand) then ApplyBandwidthLimit(s, FirstContainer, exitOk, pos)
    else ApplyToContainers(s, AllContainers, exitOk, pos)
  }

  /** The commands the legacy loop issues do not depend on any exit status. */
  lemma {:induction false} ContainersTrace(s: Scenario, cs: seq<string>, e1: ExitOracle, e2: ExitOracle, pos: nat)
    ensures ApplyToContainers(s, cs, e1, pos).issued == ApplyToContainers(s, cs, e2, pos).issued
  {
    if cs != [] {
      ContainersTrace(s, cs[..|cs| - 1], e1, e2, pos);
    }
  }

  /**
   * Per-container shaping issues, for each container in order, its stop command and then its
   * limit command, or nothing at all without a bandwidth.
   */
  lemma {:induction false} ContainersCommands(s: Scenario, cs: seq<string>, exitOk: ExitOracle, pos: nat)
    requires !IsBulkScript(s.bandwidthCommand)
    ensures var r := ApplyToContainers(s, cs, exitOk, pos);
            (s.bandwidth.None? ==> r == Shaping([], true))
            && (s.bandwidth.Some? ==> LegacyTrace(r.issued, s, cs))
  {
    if cs != [] {
      var m := |cs| - 1;
      var prev := ApplyToContainers(s, cs[..m], exitOk, pos);
      ContainersCommands(s, cs[..m], exitOk, pos);
      if s.bandwidth.Some? {
        var r := ApplyToContainers(s, cs, exitOk, pos);
        var step := ApplyBandwidthLimit(s, cs[m], exitOk, pos + |prev.issued|);
        assert r.issued == prev.issued + step.issued;
        forall j | 0 <= j < |cs|
          ensures r.issued[2 * j] == Stop(StopScript, cs[j])
                  && r.issued[2 * j + 1] == Limit(s.bandwidthCommand, cs[j], s.bandwidth.value)
        {
          if j < m {
            assert cs[..m][j] == cs[j];
            assert r.issued[2 * j] == prev.issued[2 * j] && r.issued[2 * j + 1] == prev.issued[2 * j + 1];
          }
        }
      }
    }
  }

  /** A stop command then a limit command for each container, in order. */
  predicate LegacyTrace(issued: seq<Command>, s: Scenario, cs: seq<string>)
    requires s.bandwidth.Some?
  {
    |issued| == 2 * |cs|
    && forall j :: 0 <= j < |cs| ==>
         issued[2 * j] == Stop(StopScript, cs[j]) && issued[2 * j + 1] == Limit(s.bandwidthCommand, cs[j], s.bandwidth.value)
  }

  /** The legacy loop warns exactly when the limit command of some container fails. */
  lemma {:induction false} ContainersWarn(s: Scenario, cs: seq<string>, exitOk: ExitOracle, pos: nat)
    requires !IsBulkScript(s.bandwidthCommand) && s.bandwidth.Some?
    ensures var r := ApplyToContainers(s, cs, exitOk, pos);
            r.ok <==> forall j :: 0 <= j < |cs| ==>
                        exitOk(pos + 2 * j + 1, Limit(s.bandwidthCommand, cs[j], s.bandwidth.value))
  {
    if cs != [] {
      var m := |cs| - 1;
      var prev := ApplyToContainers(s, cs[..m], exitOk, pos);
      ContainersWarn(s, cs[..m], exitOk, pos);
      ContainersCommands(s, cs[..m], exitOk, pos);
      assert |prev.issued| == 2 * m;
      assert forall j :: 0 <= j < m ==> cs[..m][j] == cs[j];
    }
  }

  /** `removeBandwidthLimit`: one unchecked stop command. */
  function RemoveBandwidthLimit(container: string): (c: Command)
    ensures c == Stop(StopScript, container)
  {
    Stop(StopScript, container)
  }

  /** The stop commands for each container, in order. */
  function Removals(cs: seq<string>): (r: seq<Command>)
    ensures |r| == |cs|
    ensures forall j :: 0 <= j < |cs| ==> r[j] == RemoveBandwidthLimit(cs[j])
  {
    if cs == [] then [] else Removals(cs[..|cs| - 1]) + [RemoveBandwidthLimit(cs[|cs| - 1])]
  }

  // ---------------------------------------------------------------- transfers

  /** The `error` of a failed request. */
  datatype GoError =
    | Transport                            // the HTTP client returned an error
    | HttpStatus(code: int)                // "HTTP %d"
    | Decode                               // the add response body did not decode
    | ReadFailed                           // reading the cat response body failed
    | SizeMismatch(expected: int, got: nat)

  /** What the add endpoint did; `elapsed` is the measured time, `hash` None when the body does not decode. */
  datatype AddOutcome =
    | AddTransportError(elapsed: real)
    | AddReply(status: int, hash: Option<string>, elapsed: real)

  /** What the cat endpoint did; `received` is None when reading the body failed. */
  datatype CatOutcome =
    | CatTransportError(elapsed: real)
    | CatReply(status: int, received: Option<nat>, elapsed: real)

  /** `uploadFile`: the hash, or the error; and the upload time, which is measured in both cases. */
  function UploadFile(add: AddOutcome): (r: (Result<string, GoError>, real))
    ensures r.1 == add.elapsed
    ensures r.0.Ok? <==> add.AddReply? && add.status == 200 && add.hash.Some?
    ensures r.0.Ok? ==> r.0.value == add.hash.value
    ensures add.AddReply? && add.status != 200 ==> r.0 == Err(HttpStatus(add.status))
  {
    match add
    case AddTransportError(t) => (Err(Transport), t)
    case AddReply(code, hash, t) =>
      if code != 200 then (Err(HttpStatus(code)), t)
      else match hash
        case None => (Err(Decode), t)
        case Some(h) => (Ok(h), t)
  }

  /** `downloadFile`: an error unless the status is 200 and exactly the expected number of bytes arrived. */
  function DownloadFile(cat: CatOutcome, expectedSize: int): (r: (Option<GoError>, real))
    ensures r.1 == cat.elapsed
    ensures r.0.None? <==> cat.CatReply? && cat.status == 200 && cat.received == Some(expectedSize)
    ensures cat.CatReply? && cat.status == 200 && cat.received.Some? && cat.received.value != expectedSize ==>
              r.0 == Some(SizeMismatch(expectedSize, cat.received.value))
  {
    match cat
    case CatTransportError(t) => (Some(Transport), t)
    case CatReply(code, received, t) =>
      if code != 200 then (Some(HttpStatus(code)), t)
      else match received
        case None => (Some(ReadFailed), t)
        case Some(n) => if n != expectedSize then (Some(SizeMismatch(expectedSize, n)), t) else (None, t)
  }

  /** Why an iteration failed: the text its `Error` field carries. */
  datatype GoFailure =
    | MissingTargets                       // "Could not find upload/download targets"
    | GenerationFailed                     // "Failed to generate random data: ..."
    | UploadFailed(cause: GoError)         // "Upload failed: ..."
    | DownloadFailed(cause: GoError)       // "Download failed: ..."

  /** A `TestResult`; an empty `Error` is None. */
  datatype GoResult = GoResult(iteration: int, file: string, fileSize: int, scenario: string,
                               scenarioName: string, bandwidth: Option<string>, success: bool,
                               ipfsHash: string, uploadTime: real, downloadTime: real,
                               uploadThroughput: real, downloadThroughput: real, totalTime: real,
                               error: Option<GoFailure>, randomDataGenTime: real)

  /** One iteration's record and the requests it sent. */
  datatype GoSingle = GoSingle(record: GoResult, requests: seq<Request>)

  /**
   * `runSingleTest` once the random payload has been generated (`generated` is its
   * generation time, None when generation failed): the role lookups, where the last target
   * with a role wins, the upload, and the download only after a successful upload.
   */
  function SingleTest(f: TestFile, s: Scenario, i: int, ts: seq<Target>, generated: Option<real>,
                      add: AddOutcome, cat: CatOutcome): (t: GoSingle)
  {
    var r := GoResult(i + 1, f.filename, f.sizeBytes, s.id, s.name, s.bandwidth, false, "",
                      0.0, 0.0, 0.0, 0.0, 0.0, None, 0.0);
    var up, down := LastWithRole(ts, UploadRole), LastWithRole(ts, DownloadRole);
    if up.None? || down.None? then GoSingle(r.(error := Some(MissingTargets)), [])
    else match generated
      case None => GoSingle(r.(error := Some(GenerationFailed)), [])
      case Some(genTime) =>
        var r := r.(randomDataGenTime := genTime);
        var addRequest := Add(up.value.container, up.value.apiPort);
        var (hash, uploadTime) := UploadFile(add);
        var r := r.(uploadTime := uploadTime);
        if hash.Err? then GoSingle(r.(error := Some(UploadFailed(hash.error))), [addRequest])
        else
          var r := r.(ipfsHash := hash.value);
          var r := if uploadTime > 0.0 then r.(uploadThroughput := (f.sizeBytes as real) / uploadTime) else r;
          var requests := [addRequest, Cat(down.value.container, down.value.apiPort, hash.value)];
          var (err, downloadTime) := DownloadFile(cat, f.sizeBytes);
          var r := r.(downloadTime := downloadTime);
          if err.Some? then GoSingle(r.(error := Some(DownloadFailed(err.value))), requests)
          else
            var r := if downloadTime > 0.0 then r.(downloadThroughput := (f.sizeBytes as real) / downloadTime) else r;
            GoSingle(r.(success := true, totalTime := uploadTime + downloadTime), requests)
  }

  /**
   * Every record names its iteration (1-based), file, scenario and bandwidth; it succeeds
   * exactly when it carries no error, and only a success has a total time, the sum of the
   * upload and download times.
   */
  lemma SingleTestRecord(f: TestFile, s: Scenario, i: int, ts: seq<Target>, generated: Option<real>,
                           add: AddOutcome, cat: CatOutcome)
    ensures var t := SingleTest(f, s, i, ts, generated, add, cat);
            var r := t.record;
            r.iteration == i + 1 && r.file == f.filename && r.fileSize == f.sizeBytes && r.scenario == s.id
            && r.scenarioName == s.name && r.bandwidth == s.bandwidth
    ensures var t := SingleTest(f, s, i, ts, generated, add, cat);
            var r := t.record;
            (r.success <==> r.error.None?)
            && (r.success ==> r.totalTime == r.uploadTime + r.downloadTime)
            && (!r.success ==> r.totalTime == 0.0)
  {
    var up, down := LastWithRole(ts, UploadRole), LastWithRole(ts, DownloadRole);
    if up.Some? && down.Some? && generated.Some? {
      var (hash, _) := UploadFile(add);
      if hash.Ok? {
        var (err, _) := DownloadFile(cat, f.sizeBytes);
      }
    }
  }

  /**
   * Once both roles exist and the payload is generated: the upload time is always kept; a
   * failed upload is the error, with no download, no download time and no throughput; after
   * a successful upload the hash and upload throughput are kept and the download decides
   * the outcome, only a successful download setting the download throughput.
   */
  lemma SingleTestOutcome(f: TestFile, s: Scenario, i: int, ts: seq<Target>, generated: Option<real>,
                           add: AddOutcome, cat: CatOutcome)
    ensures var t := SingleTest(f, s, i, ts, generated, add, cat);
            var reached := HasRole(ts, UploadRole) && HasRole(ts, DownloadRole) && generated.Some?;
            var (hash, ut) := UploadFile(add);
            var (err, dt) := DownloadFile(cat, f.sizeBytes);
            var r := t.record;
            (r.success <==> reached && hash.Ok? && err.None?)
            && (reached ==> (r.uploadTime == ut && r.randomDataGenTime == generated.value
                             && |t.requests| == (if hash.Ok? then 2 else 1)))
            && (reached && hash.Err? ==> (r.error == Some(UploadFailed(hash.error)) && r.downloadTime == 0.0
                                          && r.uploadThroughput == 0.0 && r.downloadThroughput == 0.0))
            && (reached && hash.Ok? ==> (r.ipfsHash == hash.value && r.downloadTime == dt
                                         && r.uploadThroughput == (if ut > 0.0 then (f.sizeBytes as real) / ut else 0.0)))
            && (reached && hash.Ok? && err.Some? ==> (r.error == Some(DownloadFailed(err.value)) && r.downloadThroughput == 0.0))
            && (r.success ==> r.downloadThroughput == (if dt > 0.0 then (f.sizeBytes as real) / dt else 0.0))
  {
  }

  /** A missing role fails the iteration before any payload or request. */
  lemma MissingTargetsNoTransfer(f: TestFile, s: Scenario, i: int, ts: seq<Target>, generated: Option<real>,
                                 add: AddOutcome, cat: CatOutcome)
    requires !HasRole(ts, UploadRole) || !HasRole(ts, DownloadRole)
    ensures var t := SingleTest(f, s, i, ts, generated, add, cat);
            t.requests == [] && !t.record.success && t.record.error == Some(MissingTargets)
            && t.record.uploadTime == 0.0 && t.record.downloadTime == 0.0 && t.record.totalTime == 0.0
  {
  }

  /** A size mismatch is a failed download, unlike the Python driver's mere flag. */
  lemma SizeMismatchFails(f: TestFile, s: Scenario, i: int, ts: seq<Target>, generated: Option<real>,
                          add: AddOutcome, n: nat, t: real)
    requires HasRole(ts, UploadRole) && HasRole(ts, DownloadRole) && generated.Some?
    requires UploadFile(add).0.Ok? && n != f.sizeBytes
    ensures var r := SingleTest(f, s, i, ts, generated, add, CatReply(200, Some(n), t)).record;
            !r.success && r.error == Some(DownloadFailed(SizeMismatch(f.sizeBytes, n))) && r.downloadTime == t
  {
  }

  // ---------------------------------------------------------------- statistics

  /** A `Statistics` value; `variance` stands for the square of `StdDev`. */
  datatype GoStats = GoStats(mean: real, median: real, min: real, max: real, variance: real,
                             p95: real, p99: real, count: nat)

  /** The zero value `Statistics{}`, returned for no samples. */
  const NoStats := GoStats(0.0, 0.0, 0.0, 0.0, 0.0, 0.0, 0.0, 0)

  /** The guard that pulls a percentile index at or past the end back to the last element. */
  function Clamp(k: nat, n: nat): nat
    requires n > 0
  {
    if k >= n then n - 1 else k
  }

  /**
   * The statistics read off the sorted samples: the mean of the sum, the middle element or
   * the mean of the two middle ones, the ends, the sample variance, and the percentile
   * indices `int(n * 0.95)` and `int(n * 0.99)` after the guard.
   */
  function SortedStats(sorted: seq<real>): GoStats
    requires |sorted| > 0
  {
    var n := |sorted|;
    var mean := Sum(sorted) / (n as real);
    GoStats(mean, Median(sorted), sorted[0], sorted[n - 1],
            if n > 1 then SumSquares(sorted, mean) / ((n - 1) as real) else 0.0,
            sorted[Clamp(n * 95 / 100, n)], sorted[Clamp(n * 99 / 100, n)], n)
  }

  /** `calculateStatistics` as a function of the samples it is handed. */
  function GoStatsOf(values: seq<real>): GoStats
  {
    if |values| == 0 then NoStats else SortedStats(SortReals(values))
  }

  /**
   * The summary bounds: every sample lies between `Min` and `Max`, which are samples, the
   * mean lies between them too, the median, p95 and p99 are ordered, and the spread is 0 for
   * one sample.
   */
  lemma GoStatsBounds(values: seq<real>)
    ensures var st := GoStatsOf(values);
            st.count == |values| && (|values| == 0 ==> st == NoStats)
    ensures var st := GoStatsOf(values);
            |values| > 0 ==>
              st.min in values && st.max in values && st.p95 in values && st.p99 in values
              && (forall i :: 0 <= i < |values| ==> st.min <= values[i] <= st.max)
              && st.min <= st.mean <= st.max
              && st.min <= st.median <= st.p95 <= st.p99 <= st.max
              && st.variance >= 0.0 && (|values| == 1 ==> st.variance == 0.0)
  {
    if |values| > 0 {
      var sorted := SortReals(values);
      SortedStatsOrder(sorted);
      SortedEnds(values, sorted);
      PermutedMembers(values, sorted);
    }
  }

  /** The statistics of sorted samples: the ends are the first and last sample, and the rest lies between in order. */
  lemma SortedStatsOrder(sorted: seq<real>)
    requires |sorted| > 0 && IsSorted(sorted)
    ensures var st := SortedStats(sorted);
            && st.min == sorted[0] && st.max == sorted[|sorted| - 1]
            && st.p95 in sorted && st.p99 in sorted
            && st.min <= st.mean <= st.max
            && st.min <= st.median <= st.p95 <= st.p99 <= st.max
            && st.variance >= 0.0 && (|sorted| == 1 ==> st.variance == 0.0)
  {
    SortedStatsCentre(sorted);
    SortedStatsPercentiles(sorted);
    SortedStatsSpread(sorted);
  }

  lemma SortedStatsCentre(sorted: seq<real>)
    requires |sorted| > 0 && IsSorted(sorted)
    ensures var st := SortedStats(sorted);
            && st.min == sorted[0] && st.max == sorted[|sorted| - 1]
            && st.min <= st.mean <= st.max && st.min <= st.median <= sorted[|sorted| / 2]
  {
    SortedEnds(sorted, sorted);
    MeanWithin(sorted);
    MedianWithin(sorted);
    assert SortedStats(sorted).mean == Mean(sorted);
  }

  lemma SortedStatsPercentiles(sorted: seq<real>)
    requires |sorted| > 0 && IsSorted(sorted)
    ensures var st := SortedStats(sorted);
            && st.p95 in sorted && st.p99 in sorted
            && sorted[|sorted| / 2] <= st.p95 <= st.p99 <= sorted[|sorted| - 1]
  {
    var n := |sorted|;
    var k95, k99 := P95Index(n), P99Index(n);
    assert Clamp(n * 95 / 100, n) == k95 && Clamp(n * 99 / 100, n) == k99;
    assert sorted[n / 2] <= sorted[k95] <= sorted[k99] <= sorted[n - 1];
  }

  lemma SortedStatsSpread(sorted: seq<real>)
    requires |sorted| > 0
    ensures SortedStats(sorted).variance >= 0.0 && (|sorted| == 1 ==> SortedStats(sorted).variance == 0.0)
  {
    var n := |sorted|;
    if n > 1 {
      var mean := Sum(sorted) / (n as real);
      QuotientNonNegative(SumSquares(sorted, mean), (n - 1) as real);
    }
  }

  /** A permutation holds the same samples. */
  lemma PermutedMembers(values: seq<real>, sorted: seq<real>)
    requires multiset(sorted) == multiset(values)
    ensures forall x :: x in sorted ==> x in values
  {
    forall x | x in sorted ensures x in values {
      assert x in multiset(sorted);
    }
  }

  lemma QuotientNonNegative(a: real, b: real)
    requires a >= 0.0 && b > 0.0
    ensures a / b >= 0.0
  {
  }

  /** The guard on the percentile indices never fires: both indices are already in range. */
  lemma ClampUnused(values: seq<real>)
    requires |values| > 0
    ensures var sorted := SortReals(values);
            var n := |values|;
            GoStatsOf(values).p95 == sorted[P95Index(n)] && GoStatsOf(values).p99 == sorted[P99Index(n)]
  {
  }

  /**
   * `calculateStatistics`: sorts the caller's slice in place, then accumulates the sum and
   * the sum of squared deviations over it.
   */
  method CalculateStatistics(values: array<real>) returns (st: GoStats)
    modifies values
    ensures values[..] == SortReals(old(values[..]))
    ensures st == GoStatsOf(old(values[..]))
  {
    if values.Length == 0 {
      assert values[..] == [] && SortReals([]) == [];
      return NoStats;
    }
    SortInPlace(values);
    st := SortedStatistics(values);
  }

  /** `sort.Float64s`: the slice is replaced by its sorted permutation. */
  method SortInPlace(values: array<real>)
    modifies values
    ensures values[..] == SortReals(old(values[..]))
  {
    var sorted := SortReals(values[..]);
    forall k | 0 <= k < values.Length {
      values[k] := sorted[k];
    }
    assert values[..] == sorted;
  }

  /** The part of `calculateStatistics` after the sort, reading the sorted slice. */
  method SortedStatistics(values: array<real>) returns (st: GoStats)
    requires values.Length > 0
    ensures st == SortedStats(values[..])
  {
    var n := values.Length;
    var sum := SumOf(values);
    var mean := sum / (n as real);
    var median := values[n / 2];
    if n % 2 == 0 {
      median := (values[n / 2 - 1] + values[n / 2]) / 2.0;
    }
    var sumSquares := SumSquaresOf(values, mean);
    var variance := 0.0;
    if n > 1 {
      variance := sumSquares / ((n - 1) as real);
    }
    var p95Index := n * 95 / 100;
    var p99Index := n * 99 / 100;
    if p95Index >= n {
      p95Index := n - 1;
    }
    if p99Index >= n {
      p99Index := n - 1;
    }
    st := GoStats(mean, median, values[0], values[n - 1], variance, values[p95Index], values[p99Index], n);
  }

  /** The `sum` loop of `calculateStatistics`. */
  method SumOf(values: array<real>) returns (sum: real)
    ensures sum == Sum(values[..])
  {
    sum := 0.0;
    var i := 0;
    while i < values.Length
      invariant 0 <= i <= values.Length
      invariant sum == Sum(values[..i])
    {
      assert values[..i + 1][..i] == values[..i];
      sum := sum + values[i];
      i := i + 1;
    }
    assert values[..i] == values[..];
  }

  /** The `sumSquares` loop of `calculateStatistics`. */
  method SumSquaresOf(values: array<real>, mean: real) returns (sumSquares: real)
    ensures sumSquares == SumSquares(values[..], mean)
  {
    sumSquares := 0.0;
    var i := 0;
    while i < values.Length
      invariant 0 <= i <= values.Length
      invariant sumSquares == SumSquares(values[..i], mean)
    {
      SumSquaresSnoc(values[..], i, mean);
      assert values[..][..i + 1] == values[..i + 1] && values[..][..i] == values[..i];
      var diff := values[i] - mean;
      sumSquares := sumSquares + diff * diff;
      i := i + 1;
    }
    assert values[..i] == values[..];
  }

  /** One more sample adds its squared deviation to the sum of squares. */
  lemma SumSquaresSnoc(s: seq<real>, i: nat, m: real)
    requires i < |s|
    ensures SumSquares(s[..i + 1], m) == SumSquares(s[..i], m) + (s[i] - m) * (s[i] - m)
  {
    assert s[..i + 1][..i] == s[..i];
  }

  // ---------------------------------------------------------------- one scenario

  /**
   * What answers one transfer's effects: the random source's reads and bytes, the
   * generation time, and the add and cat replies.
   */
  datatype Transfers = Transfers(readOk: TransferKey -> (nat -> bool), fill: TransferKey -> ((nat, nat) -> byte),
                                 genTime: TransferKey -> real, add: TransferKey -> AddOutcome,
                                 cat: TransferKey -> CatOutcome)

  /**
   * The environment answering the driver's effects: shaping exit statuses, the transfers,
   * and whether the `k`-th save of the result file succeeds.
   */
  datatype GoEnvironment = GoEnvironment(exitOk: ExitOracle, transfers: Transfers, saveOk: nat -> bool)

  /** The role lookup loop of `runSingleTest`: each target variable is overwritten by every later match. */
  method FindTargets(ts: seq<Target>) returns (up: Option<Target>, down: Option<Target>)
    ensures up == LastWithRole(ts, UploadRole) && down == LastWithRole(ts, DownloadRole)
  {
    up, down := None, None;
    var k := 0;
    while k < |ts|
      invariant 0 <= k <= |ts|
      invariant up == LastWithRole(ts[..k], UploadRole) && down == LastWithRole(ts[..k], DownloadRole)
    {
      assert ts[..k + 1][..k] == ts[..k];
      if ts[k].role == UploadRole {
        up := Some(ts[k]);
      } else if ts[k].role == DownloadRole {
        down := Some(ts[k]);
      }
      k := k + 1;
    }
    assert ts[..k] == ts;
  }

  /**
   * Whether `runSingleTest` panics on file `fi`: once both roles are found, the payload's
   * `make([]byte, size)` is handed a negative length, and the process ends there.
   */
  predicate PanicsOn(c: Config, fi: nat)
    requires fi < |c.files|
  {
    HasRole(c.targets, UploadRole) && HasRole(c.targets, DownloadRole) && c.files[fi].sizeBytes < 0
  }

  /**
   * Iteration `i` of file `fi` in scenario `si`: None when it panics; otherwise its test,
   * the payload generated only when both roles exist.
   */
  function TestAt(c: Config, si: nat, fi: nat, i: nat, tr: Transfers): (t: Option<GoSingle>)
    requires si < |c.scenarios| && fi < |c.files|
    ensures t.None? <==> PanicsOn(c, fi)
  {
    if PanicsOn(c, fi) then None
    else
      var key := TransferKey(si, fi, i);
      var f := c.files[fi];
      var generated := if ReadsSucceed(f.sizeBytes, tr.readOk(key)) then Some(tr.genTime(key)) else None;
      Some(SingleTest(f, c.scenarios[si], i, c.targets, generated, tr.add(key), tr.cat(key)))
  }

  /**
   * A panic needs both roles and a negative size; a missing role fails the iteration without
   * one, and a size of zero or more always returns its test.
   */
  lemma TestAtPanics(c: Config, si: nat, fi: nat, i: nat, tr: Transfers)
    requires si < |c.scenarios| && fi < |c.files|
    ensures var t := TestAt(c, si, fi, i, tr);
            (t.None? <==> HasRole(c.targets, UploadRole) && HasRole(c.targets, DownloadRole) && c.files[fi].sizeBytes < 0)
            && (t.Some? && c.files[fi].sizeBytes < 0 ==> t.value.record.error == Some(MissingTargets) && t.value.requests == [])
  {
  }

  /** The records of a run of iterations. */
  function Records(ts: seq<GoSingle>): (rs: seq<GoResult>)
  {
    seq(|ts|, k requires 0 <= k < |ts| => ts[k].record)
  }

  lemma RecordsAppend(a: seq<GoSingle>, b: seq<GoSingle>)
    ensures Records(a + b) == Records(a) + Records(b)
  {
    assert forall k :: 0 <= k < |a + b| ==> Records(a + b)[k] == (Records(a) + Records(b))[k];
  }

  /** The requests of a run of iterations, in the order they were sent. */
  function RequestsOf(ts: seq<GoSingle>): seq<Request>
  {
    if ts == [] then [] else RequestsOf(ts[..|ts| - 1]) + ts[|ts| - 1].requests
  }

  lemma {:induction false} RequestsAppend(a: seq<GoSingle>, b: seq<GoSingle>)
    ensures RequestsOf(a + b) == RequestsOf(a) + RequestsOf(b)
    decreases |b|
  {
    if b != [] {
      var front, x := b[..|b| - 1], b[|b| - 1];
      assert a + b == (a + front) + [x];
      assert ((a + front) + [x])[..|a + front|] == a + front;
      RequestsAppend(a, front);
      AppendAssociates(RequestsOf(a), RequestsOf(front), x.requests);
    } else {
      assert a + b == a;
    }
  }

  /**
   * The iteration loop on file `fi`: the tests of `count` calls of `runSingleTest`, none of
   * which a failure stops; a file that panics does so on its first iteration, having run none.
   */
  function IterationsRun(c: Config, si: nat, fi: nat, tr: Transfers, count: nat): (ts: seq<GoSingle>)
    requires si < |c.scenarios| && fi < |c.files|
    ensures |ts| == if PanicsOn(c, fi) then 0 else count
  {
    if PanicsOn(c, fi) then []
    else seq(count, i requires 0 <= i < count => TestAt(c, si, fi, i, tr).value)
  }

  /** One more iteration of a file that does not panic appends its test. */
  lemma IterationsRunSnoc(c: Config, si: nat, fi: nat, tr: Transfers, count: nat)
    requires si < |c.scenarios| && fi < |c.files| && !PanicsOn(c, fi)
    ensures IterationsRun(c, si, fi, tr, count + 1) == IterationsRun(c, si, fi, tr, count) + [TestAt(c, si, fi, count, tr).value]
  {
    var longer, shorter := IterationsRun(c, si, fi, tr, count + 1), IterationsRun(c, si, fi, tr, count);
    assert forall i :: 0 <= i < count ==> longer[i] == shorter[i];
  }

  /** Whether the iteration loop on file `fi` panics: it runs at least once and the file panics. */
  predicate FilePanics(c: Config, fi: nat)
    requires fi < |c.files|
  {
    Passes(c.test.iterations) > 0 && PanicsOn(c, fi)
  }

  /** The tests the file loop ran, and whether it ended in a panic. */
  datatype FileLoop = FileLoop(singles: seq<GoSingle>, panicked: bool)

  /** The file loop over the first `n` files: the iteration loop on each, file after file, until one panics. */
  function FilesRun(c: Config, si: nat, tr: Transfers, n: nat): FileLoop
    requires si < |c.scenarios| && n <= |c.files|
  {
    if n == 0 then FileLoop([], false)
    else
      var prev := FilesRun(c, si, tr, n - 1);
      if prev.panicked then prev
      else FileLoop(prev.singles + IterationsRun(c, si, n - 1, tr, Passes(c.test.iterations)), FilePanics(c, n - 1))
  }

  /** Once the file loop has panicked, no later file changes it. */
  lemma {:induction false} FilesRunSticks(c: Config, si: nat, tr: Transfers, m: nat, n: nat)
    requires si < |c.scenarios| && m <= n <= |c.files| && FilesRun(c, si, tr, m).panicked
    ensures FilesRun(c, si, tr, n) == FilesRun(c, si, tr, m)
    decreases n
  {
    if m < n {
      FilesRunSticks(c, si, tr, m, n - 1);
    }
  }

  /** Iteration `i` of a file's run is the single test of that iteration. */
  lemma IterationsRunAt(c: Config, si: nat, fi: nat, tr: Transfers, count: nat, i: nat)
    requires si < |c.scenarios| && fi < |c.files| && i < count && !PanicsOn(c, fi)
    ensures IterationsRun(c, si, fi, tr, count)[i] == TestAt(c, si, fi, i, tr).value
  {
  }

  /**
   * The file loop panics exactly when one of its files does. Without a panic each file
   * contributes one record per iteration, nothing being dropped on failure; with one, the
   * loop holds every iteration of the files before the first that panics, and none of it.
   */
  lemma {:induction false} FilesRunLength(c: Config, si: nat, tr: Transfers, n: nat)
    requires si < |c.scenarios| && n <= |c.files|
    ensures var r := FilesRun(c, si, tr, n);
            (r.panicked <==> exists fi :: 0 <= fi < n && FilePanics(c, fi))
            && (!r.panicked ==> |r.singles| == n * Passes(c.test.iterations))
            && (r.panicked ==> exists k :: 0 <= k < n && FilePanics(c, k) && (forall j :: 0 <= j < k ==> !FilePanics(c, j))
                                           && |r.singles| == k * Passes(c.test.iterations))
  {
    if n > 0 {
      var iters := Passes(c.test.iterations);
      FilesRunLength(c, si, tr, n - 1);
      var prev := FilesRun(c, si, tr, n - 1);
      if !prev.panicked {
        assert forall fi :: 0 <= fi < n - 1 ==> !FilePanics(c, fi);
        if FilePanics(c, n - 1) {
          assert |FilesRun(c, si, tr, n).singles| == (n - 1) * iters;
        } else {
          assert n * iters == (n - 1) * iters + iters;
        }
      }
    }
  }

  /** A file loop that has not panicked holds one record per file and iteration. */
  lemma {:induction false} FilesRunCompleteLength(c: Config, si: nat, tr: Transfers, n: nat)
    requires si < |c.scenarios| && n <= |c.files| && !FilesRun(c, si, tr, n).panicked
    ensures |FilesRun(c, si, tr, n).singles| == n * Passes(c.test.iterations)
  {
    if n > 0 {
      var iters := Passes(c.test.iterations);
      FilesRunCompleteLength(c, si, tr, n - 1);
      assert n * iters == (n - 1) * iters + iters;
    }
  }

  /** The run over fewer files is a prefix of the run over more, and a panic before persists. */
  lemma {:induction false} FilesRunPrefix(c: Config, si: nat, tr: Transfers, m: nat, n: nat)
    requires si < |c.scenarios| && m <= n <= |c.files|
    ensures FilesRun(c, si, tr, m).singles <= FilesRun(c, si, tr, n).singles
    ensures FilesRun(c, si, tr, m).panicked ==> FilesRun(c, si, tr, n).panicked
    decreases n
  {
    if m < n {
      FilesRunPrefix(c, si, tr, m, n - 1);
    }
  }

  /** When file `fi` does not end the loop, its iterations follow the records of the files before it. */
  lemma FilesRunLast(c: Config, si: nat, tr: Transfers, fi: nat, i: nat)
    requires si < |c.scenarios| && fi < |c.files| && i < Passes(c.test.iterations)
    requires !FilesRun(c, si, tr, fi + 1).panicked
    ensures |FilesRun(c, si, tr, fi).singles| + i < |FilesRun(c, si, tr, fi + 1).singles|
    ensures FilesRun(c, si, tr, fi + 1).singles[|FilesRun(c, si, tr, fi).singles| + i] == TestAt(c, si, fi, i, tr).value
  {
    IterationsRunAt(c, si, fi, tr, Passes(c.test.iterations), i);
  }

  /** The same, with the earlier files' records counted: iteration `i` of file `fi` sits at `fi * iterations + i`. */
  lemma FilesRunPlaced(c: Config, si: nat, tr: Transfers, fi: nat, i: nat)
    requires si < |c.scenarios| && fi < |c.files| && i < Passes(c.test.iterations)
    requires !FilesRun(c, si, tr, fi + 1).panicked
    ensures fi * Passes(c.test.iterations) + i < |FilesRun(c, si, tr, fi + 1).singles|
    ensures FilesRun(c, si, tr, fi + 1).singles[fi * Passes(c.test.iterations) + i] == TestAt(c, si, fi, i, tr).value
  {
    FilesRunPrefix(c, si, tr, fi, fi + 1);
    FilesRunCompleteLength(c, si, tr, fi);
    FilesRunLast(c, si, tr, fi, i);
  }

  /**
   * Results are file-major and iteration-minor: while no panic has come, iteration `i` of
   * file `fi` sits at `fi * iterations + i`, whatever later files do.
   */
  lemma FilesRunOrder(c: Config, si: nat, tr: Transfers, n: nat, fi: nat, i: nat)
    requires si < |c.scenarios| && n <= |c.files| && fi < n && i < Passes(c.test.iterations)
    requires !FilesRun(c, si, tr, fi + 1).panicked
    ensures var iters := Passes(c.test.iterations);
            fi * iters + i < |FilesRun(c, si, tr, n).singles|
            && FilesRun(c, si, tr, n).singles[fi * iters + i] == TestAt(c, si, fi, i, tr).value
  {
    var k := fi * Passes(c.test.iterations) + i;
    var upto, all := FilesRun(c, si, tr, fi + 1).singles, FilesRun(c, si, tr, n).singles;
    FilesRunPlaced(c, si, tr, fi, i);
    FilesRunPrefix(c, si, tr, fi + 1, n);
    assert all[k] == upto[k];
  }

  /** What `runScenarioTests` issues to the host, the transfers it runs, and whether it panicked. */
  datatype GoScenario = GoScenario(issued: seq<Command>, singles: seq<GoSingle>, panicked: bool)

  /** The removal after the file loop: every container for a per-container script, nothing for a bulk one. */
  function RemovalsFor(s: Scenario): seq<Command>
  {
    if IsBulkScript(s.bandwidthCommand) then [] else Removals(AllContainers)
  }

  /**
   * `runScenarioTests` for scenario `si`, its first command at trace position `pos`: the
   * shaping, whose warnings change nothing, every iteration of every file, and the removal,
   * which a panic in the file loop never reaches.
   */
  function ScenarioRun(c: Config, si: nat, env: GoEnvironment, pos: nat): GoScenario
    requires si < |c.scenarios|
  {
    var s := c.scenarios[si];
    var run := FilesRun(c, si, env.transfers, |c.files|);
    GoScenario(ShapeScenario(s, env.exitOk, pos).issued + (if run.panicked then [] else RemovalsFor(s)),
               run.singles, run.panicked)
  }

  /** Whether a run panics: some file panics, which depends on no scenario. */
  predicate RunPanics(c: Config)
  {
    exists fi :: 0 <= fi < |c.files| && FilePanics(c, fi)
  }

  /** Every scenario panics alike: when an iteration runs and some file has both roles and a negative size. */
  lemma ScenarioRunPanics(c: Config, si: nat, env: GoEnvironment, pos: nat)
    requires si < |c.scenarios|
    ensures ScenarioRun(c, si, env, pos).panicked <==> RunPanics(c)
  {
    FilesRunLength(c, si, env.transfers, |c.files|);
  }

  /**
   * The commands of a scenario: a bulk script runs once with the bandwidth and is never
   * undone; a per-container script stops and limits every container and then, unless the
   * file loop panicked, stops every container again; without a bandwidth a per-container
   * scenario still removes the limits.
   */
  lemma ScenarioCommands(c: Config, si: nat, env: GoEnvironment, pos: nat)
    requires si < |c.scenarios|
    ensures var s := c.scenarios[si];
            var o := ScenarioRun(c, si, env, pos);
            var removals := if o.panicked then [] else Removals(AllContainers);
            (IsBulkScript(s.bandwidthCommand) ==>
               o.issued == (if s.bandwidth.Some? then [BulkLimit(s.bandwidthCommand, s.bandwidth.value)] else []))
            && (!IsBulkScript(s.bandwidthCommand) && s.bandwidth.None? ==> o.issued == removals)
            && (!IsBulkScript(s.bandwidthCommand) && s.bandwidth.Some? ==>
                  |o.issued| == 2 * |AllContainers| + |removals|
                  && LegacyTrace(o.issued[..2 * |AllContainers|], s, AllContainers)
                  && o.issued[2 * |AllContainers|..] == removals)
  {
    var s := c.scenarios[si];
    var o := ScenarioRun(c, si, env, pos);
    if !IsBulkScript(s.bandwidthCommand) {
      ContainersCommands(s, AllContainers, env.exitOk, pos);
      var removals := if o.panicked then [] else Removals(AllContainers);
      if s.bandwidth.Some? {
        var sh := ShapeScenario(s, env.exitOk, pos);
        assert o.issued == sh.issued + removals;
        assert o.issued[..2 * |AllContainers|] == sh.issued;
      } else {
        assert o.issued == [] + removals;
      }
    }
  }

  /** A shaping failure is only logged: the same transfers and commands follow whatever the exit statuses. */
  lemma ShapingFailureIgnored(c: Config, si: nat, env: GoEnvironment, e: ExitOracle, pos: nat)
    requires si < |c.scenarios|
    ensures ScenarioRun(c, si, env, pos) == ScenarioRun(c, si, env.(exitOk := e), pos)
  {
    ContainersTrace(c.scenarios[si], AllContainers, env.exitOk, e, pos);
  }

  /** The record of one test that returns names its scenario. */
  lemma TestAtNamesScenario(c: Config, si: nat, fi: nat, i: nat, tr: Transfers)
    requires si < |c.scenarios| && fi < |c.files| && !PanicsOn(c, fi)
    ensures TestAt(c, si, fi, i, tr).value.record.scenario == c.scenarios[si].id
  {
    var key := TransferKey(si, fi, i);
    var generated := if ReadsSucceed(c.files[fi].sizeBytes, tr.readOk(key)) then Some(tr.genTime(key)) else None;
    SingleTestRecord(c.files[fi], c.scenarios[si], i, c.targets, generated, tr.add(key), tr.cat(key));
  }

  /** Every record of a scenario's run names that scenario. */
  lemma {:induction false} FilesRunNameScenario(c: Config, si: nat, tr: Transfers, n: nat)
    requires si < |c.scenarios| && n <= |c.files|
    ensures forall k :: 0 <= k < |FilesRun(c, si, tr, n).singles| ==>
              FilesRun(c, si, tr, n).singles[k].record.scenario == c.scenarios[si].id
  {
    if n > 0 {
      FilesRunNameScenario(c, si, tr, n - 1);
      var prev := FilesRun(c, si, tr, n - 1);
      var ts := FilesRun(c, si, tr, n).singles;
      if !prev.panicked && !PanicsOn(c, n - 1) {
        assert ts == prev.singles + IterationsRun(c, si, n - 1, tr, Passes(c.test.iterations));
        forall k | 0 <= k < |ts| ensures ts[k].record.scenario == c.scenarios[si].id {
          if k < |prev.singles| {
            assert ts[k] == prev.singles[k];
          } else {
            assert ts[k] == IterationsRun(c, si, n - 1, tr, Passes(c.test.iterations))[k - |prev.singles|];
            IterationsRunAt(c, si, n - 1, tr, Passes(c.test.iterations), k - |prev.singles|);
            TestAtNamesScenario(c, si, n - 1, k - |prev.singles|, tr);
          }
        }
      }
    }
  }

  // ---------------------------------------------------------------- all scenarios

  /**
   * The observable state of a run: the results field, the traces of commands, requests and
   * written files, and whether the process has died of a panic.
   */
  datatype GoState = GoState(results: seq<GoResult>, commands: seq<Command>, requests: seq<Request>,
                             writes: seq<seq<GoResult>>, panicked: bool)

  /** `saveResults` as the `k`-th save: a failed save writes nothing. */
  function Save(st: GoState, k: nat, env: GoEnvironment): GoState
  {
    if env.saveOk(k) then st.(writes := st.writes + [st.results]) else st
  }

  /**
   * One pass of the `runAllTests` loop: a disabled scenario is skipped; an enabled one is
   * run, its results appended, and the file saved, a failed save being only logged. A panic
   * in its file loop ends the process with the commands and requests already sent, before
   * the results are appended or saved; after it nothing runs.
   */
  function ScenarioStep(c: Config, si: nat, st: GoState, env: GoEnvironment): GoState
    requires si < |c.scenarios|
  {
    if st.panicked || !c.scenarios[si].enabled then st
    else
      var o := ScenarioRun(c, si, env, |st.commands|);
      var sent := st.(commands := st.commands + o.issued, requests := st.requests + RequestsOf(o.singles));
      if o.panicked then sent.(panicked := true)
      else Save(sent.(results := st.results + Records(o.singles)), si, env)
  }

  /** The loop of `runAllTests` over the first `n` scenarios. */
  function RunScenarios(c: Config, n: nat, st: GoState, env: GoEnvironment): GoState
    requires n <= |c.scenarios|
  {
    if n == 0 then st else ScenarioStep(c, n - 1, RunScenarios(c, n - 1, st, env), env)
  }

  /**
   * `runAllTests`: the loop, then the final save, whose failure is the error returned; a
   * process that panicked returns nothing, which reads here as no success.
   */
  function RunAll(c: Config, st: GoState, env: GoEnvironment): (r: (GoState, bool))
  {
    var r := RunScenarios(c, |c.scenarios|, st, env);
    if r.panicked then (r, false)
    else (Save(r, |c.scenarios|, env), env.saveOk(|c.scenarios|))
  }

  /** Once the process has panicked, no later scenario changes anything. */
  lemma {:induction false} PanicSticks(c: Config, m: nat, n: nat, st: GoState, env: GoEnvironment)
    requires m <= n <= |c.scenarios| && RunScenarios(c, m, st, env).panicked
    ensures RunScenarios(c, n, st, env) == RunScenarios(c, m, st, env)
    decreases n
  {
    if m < n {
      PanicSticks(c, m, n - 1, st, env);
    }
  }

  /** The number of enabled scenarios among the first `n`. */
  function EnabledCount(c: Config, n: nat): nat
    requires n <= |c.scenarios|
  {
    if n == 0 then 0 else EnabledCount(c, n - 1) + (if c.scenarios[n - 1].enabled then 1 else 0)
  }

  /** The result belongs to one of the first `n` scenarios that are enabled. */
  predicate FromEnabled(c: Config, n: nat, r: GoResult)
    requires n <= |c.scenarios|
  {
    exists i :: 0 <= i < n && c.scenarios[i].enabled && r.scenario == c.scenarios[i].id
  }

  /** Every file written holds a prefix of the results. */
  predicate WritesPrefixes(st: GoState)
  {
    forall w :: 0 <= w < |st.writes| ==> st.writes[w] <= st.results
  }

  /** One scenario pass only appends, and keeps every written file a prefix of the results. */
  lemma StepPrefixes(c: Config, si: nat, st: GoState, env: GoEnvironment)
    requires si < |c.scenarios| && WritesPrefixes(st)
    ensures var r := ScenarioStep(c, si, st, env);
            WritesPrefixes(r) && st.results <= r.results && st.writes <= r.writes
            && (c.scenarios[si].enabled && !r.panicked && env.saveOk(si) ==> r.writes[|r.writes| - 1] == r.results)
  {
    var r := ScenarioStep(c, si, st, env);
    forall w | 0 <= w < |r.writes| ensures r.writes[w] <= r.results {
      if w < |st.writes| {
        assert st.writes[w] <= st.results;
      }
    }
  }

  /**
   * One scenario pass panics exactly when the process had, or the scenario is enabled and
   * the run panics. Only an enabled scenario that does not panic adds records: one per file
   * and iteration, each naming that scenario.
   */
  lemma StepAdds(c: Config, si: nat, st: GoState, env: GoEnvironment)
    requires si < |c.scenarios|
    ensures var r := ScenarioStep(c, si, st, env);
            (r.panicked <==> st.panicked || (c.scenarios[si].enabled && RunPanics(c)))
            && |r.results| == |st.results| + (if c.scenarios[si].enabled && !r.panicked then |c.files| * Passes(c.test.iterations) else 0)
            && (forall k :: |st.results| <= k < |r.results| ==> r.results[k].scenario == c.scenarios[si].id)
  {
    if !st.panicked && c.scenarios[si].enabled {
      var o := ScenarioRun(c, si, env, |st.commands|);
      ScenarioRunPanics(c, si, env, |st.commands|);
      FilesRunLength(c, si, env.transfers, |c.files|);
      FilesRunNameScenario(c, si, env.transfers, |c.files|);
      var r := ScenarioStep(c, si, st, env);
      assert !o.panicked ==> r.results == st.results + Records(o.singles);
    }
  }

  /** `runAllTests` only appends, and every file it writes is a prefix of the results. */
  lemma {:induction false} RunScenariosPrefixes(c: Config, n: nat, st: GoState, env: GoEnvironment)
    requires n <= |c.scenarios| && WritesPrefixes(st)
    ensures var r := RunScenarios(c, n, st, env);
            WritesPrefixes(r) && st.results <= r.results && st.writes <= r.writes
  {
    if n > 0 {
      var m := n - 1;
      RunScenariosPrefixes(c, m, st, env);
      StepPrefixes(c, m, RunScenarios(c, m, st, env), env);
      assert m + 1 == n;
    }
  }

  /**
   * The scenario loop panics exactly when the process had already, or the run panics and
   * some scenario is enabled; it then dies in the first enabled scenario, having added no
   * result and written no file.
   */
  lemma {:induction false} RunScenariosPanics(c: Config, n: nat, st: GoState, env: GoEnvironment)
    requires n <= |c.scenarios|
    ensures var r := RunScenarios(c, n, st, env);
            (r.panicked <==> st.panicked || (RunPanics(c) && EnabledCount(c, n) > 0))
            && (r.panicked && !st.panicked ==> r.results == st.results && r.writes == st.writes)
  {
    if n > 0 {
      var m := n - 1;
      RunScenariosPanics(c, m, st, env);
      var prev := RunScenarios(c, m, st, env);
      StepAdds(c, m, prev, env);
      assert m + 1 == n;
      if !prev.panicked && c.scenarios[m].enabled {
        ScenarioRunPanics(c, m, env, |prev.commands|);
        if RunPanics(c) {
          assert EnabledCount(c, m) == 0;
          RunScenariosWrites(c, m, st, env);
        }
      }
    }
  }

  /** Where no scenario is enabled, the loop leaves the results and the written files as they were. */
  lemma {:induction false} RunScenariosWrites(c: Config, n: nat, st: GoState, env: GoEnvironment)
    requires n <= |c.scenarios| && EnabledCount(c, n) == 0
    ensures RunScenarios(c, n, st, env) == st
  {
    if n > 0 {
      RunScenariosWrites(c, n - 1, st, env);
    }
  }

  /**
   * `runAllTests` appends one record per file and iteration of every enabled scenario when
   * it does not panic, and none when it does.
   */
  lemma {:induction false} RunScenariosLength(c: Config, n: nat, st: GoState, env: GoEnvironment)
    requires n <= |c.scenarios|
    ensures var r := RunScenarios(c, n, st, env);
            |r.results| == |st.results| + (if r.panicked then 0 else EnabledCount(c, n) * (|c.files| * Passes(c.test.iterations)))
  {
    if n > 0 {
      var m := n - 1;
      RunScenariosLength(c, m, st, env);
      var prev := RunScenarios(c, m, st, env);
      var r := RunScenarios(c, n, st, env);
      var block := |c.files| * Passes(c.test.iterations);
      StepAdds(c, m, prev, env);
      assert m + 1 == n;
      if prev.panicked {
        assert r == prev;
      } else if r.panicked {
        RunScenariosPanics(c, m, st, env);
        RunScenariosWrites(c, m, st, env);
      } else {
        CountStep(|st.results|, |prev.results|, |r.results|, EnabledCount(c, m), EnabledCount(c, n), block, c.scenarios[m].enabled);
      }
    }
  }

  /** The count after one more scenario, as arithmetic on the counts. */
  lemma CountStep(base: nat, before: nat, after: nat, done: nat, done': nat, block: nat, enabled: bool)
    requires before == base + done * block
    requires after == before + (if enabled then block else 0)
    requires done' == done + (if enabled then 1 else 0)
    ensures after == base + done' * block
  {
    if enabled {
      Distributes(done, 1, block);
    }
  }

  /** Every result `runAllTests` appends comes from an enabled scenario. */
  lemma {:induction false} RunScenariosFromEnabled(c: Config, n: nat, st: GoState, env: GoEnvironment)
    requires n <= |c.scenarios|
    ensures var r := RunScenarios(c, n, st, env);
            st.results <= r.results && forall k :: |st.results| <= k < |r.results| ==> FromEnabled(c, n, r.results[k])
  {
    if n > 0 {
      var m := n - 1;
      RunScenariosFromEnabled(c, m, st, env);
      var prev := RunScenarios(c, m, st, env);
      StepAdds(c, m, prev, env);
      StepPrefixesResults(c, m, prev, env);
      var r := ScenarioStep(c, m, prev, env);
      assert m + 1 == n && r == RunScenarios(c, n, st, env);
      forall k | |st.results| <= k < |r.results| ensures FromEnabled(c, n, r.results[k]) {
        if k < |prev.results| {
          assert FromEnabled(c, m, prev.results[k]);
          var i :| 0 <= i < m && c.scenarios[i].enabled && prev.results[k].scenario == c.scenarios[i].id;
          assert r.results[k] == prev.results[k];
        } else {
          assert c.scenarios[m].enabled && r.results[k].scenario == c.scenarios[m].id;
        }
      }
    }
  }

  /** One scenario pass extends the results. */
  lemma StepPrefixesResults(c: Config, si: nat, st: GoState, env: GoEnvironment)
    requires si < |c.scenarios|
    ensures st.results <= ScenarioStep(c, si, st, env).results
  {
  }

  /**
   * A successful final save leaves the file holding every result; a failed one is the error
   * returned; a panic returns nothing and skips the final save.
   */
  lemma RunAllSaves(c: Config, st: GoState, env: GoEnvironment)
    requires WritesPrefixes(st)
    ensures var (r, ok) := RunAll(c, st, env);
            WritesPrefixes(r) && st.results <= r.results
            && (ok ==> !r.panicked && r.writes[|r.writes| - 1] == r.results)
            && (!ok ==> r == RunScenarios(c, |c.scenarios|, st, env))
            && (r.panicked ==> !ok)
  {
    RunScenariosPrefixes(c, |c.scenarios|, st, env);
  }

  /** Shaping exit statuses never change the run: the same results, traces and files follow. */
  lemma {:induction false} RunIgnoresExit(c: Config, n: nat, st: GoState, env: GoEnvironment, e: ExitOracle)
    requires n <= |c.scenarios|
    ensures RunScenarios(c, n, st, env) == RunScenarios(c, n, st, env.(exitOk := e))
  {
    if n > 0 {
      var m := n - 1;
      RunIgnoresExit(c, m, st, env, e);
      ShapingFailureIgnored(c, m, env, e, |RunScenarios(c, m, st, env).commands|);
      assert m + 1 == n;
    }
  }

  // ---------------------------------------------------------------- summary

  function PairKey(r: GoResult): (string, string) { (r.scenario, r.file) }
  function SuccessKey(r: GoResult): bool { r.success }

  /** The upload times, in order, as the summary loop appends them. */
  function UploadTimes(rs: seq<GoResult>): (v: seq<real>)
    ensures |v| == |rs|
  {
    if rs == [] then [] else UploadTimes(rs[..|rs| - 1]) + [rs[|rs| - 1].uploadTime]
  }

  function DownloadTimes(rs: seq<GoResult>): (v: seq<real>)
    ensures |v| == |rs|
  {
    if rs == [] then [] else DownloadTimes(rs[..|rs| - 1]) + [rs[|rs| - 1].downloadTime]
  }

  /** Effective throughput in Mbps for a mean duration; a zero mean (an infinite rate) is None. */
  function Mbps(sizeBytes: int, mean: real): Option<real>
  {
    if mean == 0.0 then None else Some((sizeBytes as real) * 8.0 / mean / 1000000.0)
  }

  /** What `displaySummary` prints for one file of one scenario. */
  datatype FileReport = FileReport(file: string, successRate: real, upload: GoStats, download: GoStats,
                                   uploadMbps: Option<real>, downloadMbps: Option<real>)

  /** What `displaySummary` prints for one enabled scenario: its name, bandwidth label and file reports. */
  datatype ScenarioReport = ScenarioReport(name: string, bandwidth: string, files: seq<FileReport>)

  /** The printed bandwidth: the scenario's, or "Unlimited" without one. */
  function BandwidthLabel(b: Option<string>): string
  {
    if b.None? then "Unlimited" else b.value
  }

  /**
   * The report for file `f` of scenario `s`: the results naming both, their successes, the
   * success rate in percent, and the statistics of the successful upload and download
   * times; nothing without a success.
   */
  function FileReportOf(f: TestFile, s: Scenario, results: seq<GoResult>): Option<FileReport>
  {
    var fileResults := Filter(results, PairKey, (s.id, f.filename));
    var successful := Filter(fileResults, SuccessKey, true);
    if |successful| == 0 then None
    else Some(ReportOf(f, |fileResults|, successful))
  }

  /** The success rate in percent; an empty total, which the summary never reaches, reads as 0. */
  function Percent(successful: nat, total: nat): (r: real)
    ensures 0 < successful <= total ==> 0.0 < r <= 100.0
  {
    if total == 0 then 0.0
    else
      var n, d := successful as real, total as real;
      assert 0 < successful <= total ==> 0.0 < n * 100.0 / d <= 100.0 by {
        if 0 < successful <= total {
          RateWithin(n, d);
        }
      }
      n * 100.0 / d
  }

  /** The printed figures for `successful`, the successes among `total` results of a file. */
  function ReportOf(f: TestFile, total: nat, successful: seq<GoResult>): FileReport
  {
    var upload, download := GoStatsOf(UploadTimes(successful)), GoStatsOf(DownloadTimes(successful));
    FileReport(f.filename, Percent(|successful|, total), upload, download,
               Mbps(f.sizeBytes, upload.mean), Mbps(f.sizeBytes, download.mean))
  }

  /**
   * A file is reported exactly when some result of that scenario and file succeeded; its
   * success rate is then a percentage above 0, and its statistics count exactly those
   * successes.
   */
  lemma FileReportFacts(f: TestFile, s: Scenario, results: seq<GoResult>)
    ensures var r := FileReportOf(f, s, results);
            r.Some? <==> exists k :: 0 <= k < |results| && results[k].success
                                     && results[k].scenario == s.id && results[k].file == f.filename
    ensures var r := FileReportOf(f, s, results);
            var picked := Filter(Filter(results, PairKey, (s.id, f.filename)), SuccessKey, true);
            r.Some? ==> 0.0 < r.value.successRate <= 100.0 && r.value.file == f.filename
                        && r.value.upload.count == |picked| && r.value.download.count == |picked|
  {
    var pk := (s.id, f.filename);
    var fileResults := Filter(results, PairKey, pk);
    var successful := Filter(fileResults, SuccessKey, true);
    SuccessfulPresent(results, s, f);
    if |successful| > 0 {
      GoStatsBounds(UploadTimes(successful));
      GoStatsBounds(DownloadTimes(successful));
    }
  }

  /** A scenario's file has a success among its results exactly when some result of that pair succeeded. */
  lemma SuccessfulPresent(results: seq<GoResult>, s: Scenario, f: TestFile)
    ensures var successful := Filter(Filter(results, PairKey, (s.id, f.filename)), SuccessKey, true);
            |successful| > 0 <==> exists k :: 0 <= k < |results| && results[k].success
                                              && results[k].scenario == s.id && results[k].file == f.filename
  {
    var pk := (s.id, f.filename);
    var fileResults := Filter(results, PairKey, pk);
    var successful := Filter(fileResults, SuccessKey, true);
    FilterMembers(results, PairKey, pk);
    FilterMembers(fileResults, SuccessKey, true);
    if exists k :: 0 <= k < |results| && results[k].success && results[k].scenario == s.id && results[k].file == f.filename {
      var k :| 0 <= k < |results| && results[k].success && results[k].scenario == s.id && results[k].file == f.filename;
      assert results[k] in successful;
    }
    if |successful| > 0 {
      assert successful[0] in fileResults;
    }
  }

  lemma RateWithin(n: real, d: real)
    requires 0.0 < n <= d
    ensures 0.0 < n * 100.0 / d <= 100.0
  {
  }

  function FileReportFn(s: Scenario, results: seq<GoResult>): TestFile -> Option<FileReport>
  {
    f => FileReportOf(f, s, results)
  }

  /** A report for each enabled scenario, disabled ones printing nothing. */
  function ScenarioReportOf(c: Config, results: seq<GoResult>, s: Scenario): Option<ScenarioReport>
  {
    if !s.enabled then None
    else Some(ScenarioReport(s.name, BandwidthLabel(s.bandwidth), Collect(c.files, FileReportFn(s, results))))
  }

  function ScenarioReportFn(c: Config, results: seq<GoResult>): Scenario -> Option<ScenarioReport>
  {
    s => ScenarioReportOf(c, results, s)
  }

  /** `displaySummary`: the reports of the enabled scenarios, in configuration order. */
  function SummaryReports(c: Config, results: seq<GoResult>): seq<ScenarioReport>
  {
    Collect(c.scenarios, ScenarioReportFn(c, results))
  }

  /**
   * The summary holds one report per enabled scenario, in order, each with that scenario's
   * name and bandwidth label and the reports of its files that had a success, in file order.
   */
  lemma SummaryContents(c: Config, results: seq<GoResult>)
    ensures var reports := SummaryReports(c, results);
            var picked := Picked(c.scenarios, ScenarioReportFn(c, results));
            |reports| == |picked|
            && (forall i :: 0 <= i < |c.scenarios| ==> (i in picked <==> c.scenarios[i].enabled))
            && (forall j, j' :: 0 <= j < j' < |picked| ==> picked[j] < picked[j'])
            && forall j :: 0 <= j < |reports| ==>
                 var s := c.scenarios[picked[j]];
                 reports[j] == ScenarioReport(s.name, BandwidthLabel(s.bandwidth), Collect(c.files, FileReportFn(s, results)))
  {
    CollectPicked(c.scenarios, ScenarioReportFn(c, results));
  }

  /** The filtering loop of `displaySummary`: the results naming both the scenario and the file, in order. */
  method FilterResults(results: seq<GoResult>, s: Scenario, f: TestFile) returns (fileResults: seq<GoResult>)
    ensures fileResults == Filter(results, PairKey, (s.id, f.filename))
  {
    fileResults := [];
    var k := 0;
    while k < |results|
      invariant 0 <= k <= |results|
      invariant fileResults == Filter(results[..k], PairKey, (s.id, f.filename))
    {
      assert results[..k + 1][..k] == results[..k];
      if results[k].scenario == s.id && results[k].file == f.filename {
        fileResults := fileResults + [results[k]];
      }
      k := k + 1;
    }
    assert results[..k] == results;
  }

  /** The counting loop of `displaySummary`: the successes and their upload and download times. */
  method CountSuccesses(fileResults: seq<GoResult>) returns (successful: nat, uploadTimes: seq<real>, downloadTimes: seq<real>)
    ensures var ok := Filter(fileResults, SuccessKey, true);
            successful == |ok| && uploadTimes == UploadTimes(ok) && downloadTimes == DownloadTimes(ok)
  {
    successful, uploadTimes, downloadTimes := 0, [], [];
    ghost var ok: seq<GoResult> := [];
    var k := 0;
    while k < |fileResults|
      invariant 0 <= k <= |fileResults|
      invariant ok == Filter(fileResults[..k], SuccessKey, true)
      invariant successful == |ok| && uploadTimes == UploadTimes(ok) && downloadTimes == DownloadTimes(ok)
    {
      assert fileResults[..k + 1][..k] == fileResults[..k];
      var r := fileResults[k];
      if r.success {
        assert (ok + [r])[..|ok|] == ok;
        ok := ok + [r];
        successful := successful + 1;
        uploadTimes := uploadTimes + [r.uploadTime];
        downloadTimes := downloadTimes + [r.downloadTime];
      }
      k := k + 1;
    }
    assert fileResults[..k] == fileResults;
  }

  /** The statistics of a fresh slice, as `calculateStatistics` computes them. */
  method StatisticsOf(times: seq<real>) returns (st: GoStats)
    ensures st == GoStatsOf(times)
  {
    var a := new real[|times|](k requires 0 <= k < |times| => times[k]);
    assert a[..] == times;
    st := CalculateStatistics(a);
  }

  /** The body of the file loop of `displaySummary` for file `f` of scenario `s`. */
  method FileReportFor(results: seq<GoResult>, s: Scenario, f: TestFile) returns (r: Option<FileReport>)
    ensures r == FileReportOf(f, s, results)
  {
    var fileResults := FilterResults(results, s, f);
    ghost var successes := Filter(fileResults, SuccessKey, true);
    if |fileResults| == 0 {
      assert successes == [];
      return None;
    }
    var successful, uploadTimes, downloadTimes := CountSuccesses(fileResults);
    if |uploadTimes| == 0 {
      return None;
    }
    var uploadStats := StatisticsOf(uploadTimes);
    var downloadStats := StatisticsOf(downloadTimes);
    var rate := Percent(successful, |fileResults|);
    var report := FileReport(f.filename, rate, uploadStats, downloadStats,
                             Mbps(f.sizeBytes, uploadStats.mean), Mbps(f.sizeBytes, downloadStats.mean));
    assert report == ReportOf(f, |fileResults|, successes);
    r := Some(report);
  }

  /** The file loop of `displaySummary` for scenario `s`. */
  method ScenarioReportFor(c: Config, results: seq<GoResult>, s: Scenario) returns (files: seq<FileReport>)
    ensures files == Collect(c.files, FileReportFn(s, results))
  {
    files := [];
    var fi := 0;
    while fi < |c.files|
      invariant 0 <= fi <= |c.files|
      invariant files == Collect(c.files[..fi], FileReportFn(s, results))
    {
      CollectSnocAt(c.files, fi, FileReportFn(s, results));
      var r := FileReportFor(results, s, c.files[fi]);
      assert FileReportFn(s, results)(c.files[fi]) == r;
      if r.Some? {
        files := files + [r.value];
      }
      fi := fi + 1;
    }
    assert c.files[..fi] == c.files;
  }

  /** `displaySummary` over the tester's results. */
  method DisplaySummary(c: Config, results: seq<GoResult>) returns (reports: seq<ScenarioReport>)
    ensures reports == SummaryReports(c, results)
  {
    reports := [];
    var si := 0;
    while si < |c.scenarios|
      invariant 0 <= si <= |c.scenarios|
      invariant reports == Collect(c.scenarios[..si], ScenarioReportFn(c, results))
    {
      var s := c.scenarios[si];
      CollectSnocAt(c.scenarios, si, ScenarioReportFn(c, results));
      if s.enabled {
        var files := ScenarioReportFor(c, results, s);
        reports := reports + [ScenarioReport(s.name, BandwidthLabel(s.bandwidth), files)];
      }
      si := si + 1;
    }
    assert c.scenarios[..si] == c.scenarios;
  }

  // ---------------------------------------------------------------- the tester

  /** The accumulators of a loop after one more run of tests: the records and requests of both runs in order. */
  lemma AccumulateStep(done: seq<GoSingle>, more: seq<GoSingle>, base: seq<Request>, before: seq<Request>,
                       after: seq<Request>, results: seq<GoResult>, added: seq<GoResult>)
    requires results == Records(done) && before == base + RequestsOf(done)
    requires added == Records(more) && after == before + RequestsOf(more)
    ensures results + added == Records(done + more) && after == base + RequestsOf(done + more)
  {
    RecordsAppend(done, more);
    RequestsAppend(done, more);
    AppendAssociates(base, RequestsOf(done), RequestsOf(more));
  }

  /** One more test extends the records and the requests by its own. */
  lemma SnocSingle(ts: seq<GoSingle>, t: GoSingle)
    ensures Records(ts + [t]) == Records(ts) + [t.record]
    ensures RequestsOf(ts + [t]) == RequestsOf(ts) + t.requests
  {
    assert (ts + [t])[..|ts|] == ts;
    assert Records(ts + [t]) == Records(ts) + [t.record];
  }

  /** The Go tester: its configuration, its `results` field and the traces of its effects. */
  class BandwidthTester {
    const config: Config
    var results: seq<GoResult>
    var commands: seq<Command>
    var requests: seq<Request>
    var writes: seq<seq<GoResult>>

    function State(): GoState
      reads this
    {
      GoState(results, commands, requests, writes, false)
    }

    constructor (config: Config)
      ensures this.config == config && results == [] && commands == [] && requests == [] && writes == []
    {
      this.config := config;
      results := [];
      commands := [];
      requests := [];
      writes := [];
    }

    /** The shaping of `runScenarioTests`: one bulk call, or every container with failures only logged. */
    method ApplyLimits(s: Scenario, env: GoEnvironment) returns (ok: bool)
      modifies this`commands
      ensures var sh := ShapeScenario(s, env.exitOk, |old(commands)|);
              ok == sh.ok && commands == old(commands) + sh.issued
    {
      if IsBulkScript(s.bandwidthCommand) {
        var step := ApplyBandwidthLimit(s, FirstContainer, env.exitOk, |commands|);
        commands := commands + step.issued;
        return step.ok;
      }
      ghost var start := |commands|;
      ok := true;
      var k := 0;
      while k < |AllContainers|
        invariant 0 <= k <= |AllContainers|
        invariant var sh := ApplyToContainers(s, AllContainers[..k], env.exitOk, start);
                  ok == sh.ok && commands == old(commands) + sh.issued
      {
        assert AllContainers[..k + 1][..k] == AllContainers[..k];
        var step := ApplyBandwidthLimit(s, AllContainers[k], env.exitOk, |commands|);
        AppendAssociates(old(commands), ApplyToContainers(s, AllContainers[..k], env.exitOk, start).issued, step.issued);
        commands := commands + step.issued;
        ok := ok && step.ok;
        k := k + 1;
      }
      assert AllContainers[..k] == AllContainers;
    }

    /** The removal of `runScenarioTests`: every container for a per-container script. */
    method RemoveLimits(s: Scenario)
      modifies this`commands
      ensures commands == old(commands) + RemovalsFor(s)
    {
      if IsBulkScript(s.bandwidthCommand) {
        return;
      }
      var k := 0;
      while k < |AllContainers|
        invariant 0 <= k <= |AllContainers|
        invariant commands == old(commands) + Removals(AllContainers[..k])
      {
        assert AllContainers[..k + 1][..k] == AllContainers[..k];
        AppendAssociates(old(commands), Removals(AllContainers[..k]), [RemoveBandwidthLimit(AllContainers[k])]);
        commands := commands + [RemoveBandwidthLimit(AllContainers[k])];
        k := k + 1;
      }
      assert AllContainers[..k] == AllContainers;
    }

    /**
     * `runSingleTest` for iteration `i` of file `fi`: the role lookup, the payload, then the
     * transfers; None is the panic of `make` on a negative size, after which nothing returns.
     */
    method RunSingleTest(si: nat, fi: nat, i: nat, tr: Transfers) returns (t: Option<GoSingle>)
      requires si < |config.scenarios| && fi < |config.files|
      ensures t == TestAt(config, si, fi, i, tr)
    {
      var f := config.files[fi];
      var key := TransferKey(si, fi, i);
      var up, down := FindTargets(config.targets);
      var generated: Option<real> := None;
      if up.Some? && down.Some? {
        if f.sizeBytes < 0 {
          return None;
        }
        var data := GenerateRandomData(f.sizeBytes, tr.readOk(key), tr.fill(key));
        if data.Some? {
          generated := Some(tr.genTime(key));
        }
      }
      t := Some(SingleTest(f, config.scenarios[si], i, config.targets, generated, tr.add(key), tr.cat(key)));
    }

    /** The iteration loop of `runScenarioTests` for file `fi`, left at once by a panic. */
    method RunIterations(si: nat, fi: nat, tr: Transfers) returns (fileResults: seq<GoResult>, panicked: bool)
      requires si < |config.scenarios| && fi < |config.files|
      modifies this`requests
      ensures var ts := IterationsRun(config, si, fi, tr, Passes(config.test.iterations));
              fileResults == Records(ts) && requests == old(requests) + RequestsOf(ts)
      ensures panicked == FilePanics(config, fi)
    {
      var iters := Passes(config.test.iterations);
      fileResults := [];
      var i := 0;
      while i < iters
        invariant 0 <= i <= iters && (i > 0 ==> !PanicsOn(config, fi))
        invariant var ts := IterationsRun(config, si, fi, tr, i);
                  fileResults == Records(ts) && requests == old(requests) + RequestsOf(ts)
      {
        ghost var ts := IterationsRun(config, si, fi, tr, i);
        var t := RunSingleTest(si, fi, i, tr);
        if t.None? {
          return fileResults, true;
        }
        IterationsRunSnoc(config, si, fi, tr, i);
        SnocSingle(ts, t.value);
        AppendAssociates(old(requests), RequestsOf(ts), t.value.requests);
        fileResults := fileResults + [t.value.record];
        requests := requests + t.value.requests;
        i := i + 1;
      }
      panicked := false;
    }

    /** The file loop of `runScenarioTests`: every iteration of every file, file after file, until a panic. */
    method RunFiles(si: nat, tr: Transfers) returns (scenarioResults: seq<GoResult>, panicked: bool)
      requires si < |config.scenarios|
      modifies this`requests
      ensures var run := FilesRun(config, si, tr, |config.files|);
              scenarioResults == Records(run.singles) && requests == old(requests) + RequestsOf(run.singles)
              && panicked == run.panicked
    {
      scenarioResults := [];
      ghost var done: seq<GoSingle> := [];
      ghost var base := requests;
      panicked := false;
      var fi := 0;
      while fi < |config.files| && !panicked
        invariant fi <= |config.files| && FilesRun(config, si, tr, fi) == FileLoop(done, panicked)
        invariant scenarioResults == Records(done) && requests == base + RequestsOf(done)
      {
        scenarioResults, done, panicked := RunFile(si, fi, tr, base, scenarioResults, done);
        fi := fi + 1;
      }
      if panicked {
        FilesRunSticks(config, si, tr, fi, |config.files|);
      }
    }

    /** One pass of the file loop: the iterations of file `fi` follow the earlier files' records and requests. */
    method RunFile(si: nat, fi: nat, tr: Transfers, ghost base: seq<Request>, results: seq<GoResult>,
                   ghost done: seq<GoSingle>) returns (results': seq<GoResult>, ghost done': seq<GoSingle>, panicked: bool)
      requires si < |config.scenarios| && fi < |config.files|
      requires FilesRun(config, si, tr, fi) == FileLoop(done, false) && results == Records(done) && requests == base + RequestsOf(done)
      modifies this`requests
      ensures FilesRun(config, si, tr, fi + 1) == FileLoop(done', panicked)
      ensures results' == Records(done') && requests == base + RequestsOf(done')
    {
      ghost var more := IterationsRun(config, si, fi, tr, Passes(config.test.iterations));
      ghost var before := requests;
      var fileResults;
      fileResults, panicked := RunIterations(si, fi, tr);
      AccumulateStep(done, more, base, before, requests, results, fileResults);
      results' := results + fileResults;
      done' := done + more;
    }

    /** `runScenarioTests` for scenario `si`; a panic in the file loop leaves before the removal. */
    method RunScenarioTests(si: nat, env: GoEnvironment) returns (scenarioResults: seq<GoResult>, panicked: bool)
      requires si < |config.scenarios|
      modifies this`commands, this`requests
      ensures var o := ScenarioRun(config, si, env, |old(commands)|);
              scenarioResults == Records(o.singles) && commands == old(commands) + o.issued
              && requests == old(requests) + RequestsOf(o.singles) && panicked == o.panicked
    {
      var s := config.scenarios[si];
      ghost var sh := ShapeScenario(s, env.exitOk, |commands|);
      var _ := ApplyLimits(s, env);
      scenarioResults, panicked := RunFiles(si, env.transfers);
      if panicked {
        assert commands == old(commands) + sh.issued + [];
        return;
      }
      RemoveLimits(s);
      AppendAssociates(old(commands), sh.issued, RemovalsFor(s));
    }

    /** `saveResults` as the `k`-th save; a failure is returned and nothing is written. */
    method SaveResults(k: nat, env: GoEnvironment) returns (ok: bool)
      modifies this`writes
      ensures State() == Save(old(State()), k, env) && ok == env.saveOk(k)
    {
      ok := env.saveOk(k);
      if ok {
        writes := writes + [results];
      }
    }

    /** One pass of the `runAllTests` loop; `panicked` is the process dying in it. */
    method RunScenario(si: nat, env: GoEnvironment) returns (panicked: bool)
      requires si < |config.scenarios|
      modifies this`results, this`commands, this`requests, this`writes
      ensures GoState(results, commands, requests, writes, panicked) == ScenarioStep(config, si, old(State()), env)
    {
      panicked := false;
      if config.scenarios[si].enabled {
        var scenarioResults;
        scenarioResults, panicked := RunScenarioTests(si, env);
        if panicked {
          return;
        }
        results := results + scenarioResults;
        var _ := SaveResults(si, env);
      }
    }

    /** The scenario loop of `runAllTests`: every scenario in order, until a panic ends the process. */
    method RunScenarioLoop(env: GoEnvironment) returns (panicked: bool)
      modifies this`results, this`commands, this`requests, this`writes
      ensures State().(panicked := panicked) == RunScenarios(config, |config.scenarios|, old(State()), env)
    {
      ghost var st0 := State();
      var si := 0;
      while si < |config.scenarios|
        invariant 0 <= si <= |config.scenarios|
        invariant RunScenarios(config, si, st0, env) == GoState(results, commands, requests, writes, false)
      {
        ghost var before := GoState(results, commands, requests, writes, false);
        panicked := RunScenario(si, env);
        assert RunScenarios(config, si + 1, st0, env) == ScenarioStep(config, si, before, env);
        if panicked {
          PanicSticks(config, si + 1, |config.scenarios|, st0, env);
          return;
        }
        si := si + 1;
      }
      panicked := false;
    }

    /**
     * `runAllTests`: every scenario, then the final save; `ok` is a nil error, and only then
     * is the summary displayed. `panicked` is the process dying of a panic on the way.
     */
    method RunAllTests(env: GoEnvironment) returns (ok: bool, panicked: bool, shown: Option<seq<ScenarioReport>>)
      modifies this`results, this`commands, this`requests, this`writes
      ensures (State().(panicked := panicked), ok) == RunAll(config, old(State()), env)
      ensures shown == if ok then Some(SummaryReports(config, results)) else None
    {
      panicked := RunScenarioLoop(env);
      if panicked {
        return false, true, None;
      }
      ok := SaveResults(|config.scenarios|, env);
      if !ok {
        return ok, panicked, None;
      }
      var reports := DisplaySummary(config, results);
      shown := Some(reports);
    }
  }
}
