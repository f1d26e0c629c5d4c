/**
 * The Python bandwidth driver (`IPFSBandwidthTester`): the shaping decision, the result
 * records built from one upload and one download, the nearest-rank statistics, the
 * scenario driver and the summary it persists.
 */
module PyRunner {
  import opened Outcomes
  import opened Samples
  import opened Grouping
  import opened BenchConfig

  const StopScript := "./scripts/network-chaos/stop-chaos.sh"
  const Localhost := "localhost"

  // ---------------------------------------------------------------- shaping

  /**
   * `apply_bandwidth_limit` for one container, its commands occupying trace positions
   * from `pos` on. The stop command runs unchecked; only the limit command's exit status
   * decides the outcome, and a failing one yields false rather than an exception.
   */
  function ApplyBandwidthLimit(s: Scenario, container: string, exitOk: ExitOracle, pos: nat): (r: Shaping)
    ensures s.bandwidth.None? ==> r.issued == [] && r.ok
    ensures s.bandwidth.Some? ==>
              r.issued == [Stop(StopScript, container), Limit(s.bandwidthCommand, container, s.bandwidth.value)]
              && (r.ok <==> exitOk(pos + 1, r.issued[1]))
  {
    match s.bandwidth
    case None => Shaping([], true)
    case Some(bw) =>
      var stop := Stop(StopScript, container);
      var limit := Limit(s.bandwidthCommand, container, bw);
      Shaping([stop, limit], exitOk(pos + 1, limit))
  }

  /** The exit status of the stop command never changes the outcome. */
  lemma StopStatusIgnored(s: Scenario, container: string, e1: ExitOracle, e2: ExitOracle, pos: nat)
    requires forall k, c :: k != pos ==> e1(k, c) == e2(k, c)
    ensures ApplyBandwidthLimit(s, container, e1, pos) == ApplyBandwidthLimit(s, container, e2, pos)
  {
  }

  /** `remove_bandwidth_limit`: one unchecked stop command. */
  function RemoveBandwidthLimit(container: string): (c: Command)
    ensures c.Stop? && c.container == container
  {
    Stop(StopScript, container)
  }

  /** The removal commands for every target, in target order. */
  function Removals(ts: seq<Target>): (cs: seq<Command>)
    ensures |cs| == |ts|
    ensures forall i :: 0 <= i < |ts| ==> cs[i] == RemoveBandwidthLimit(ts[i].container)
  {
    if ts == [] then [] else Removals(ts[..|ts| - 1]) + [RemoveBandwidthLimit(ts[|ts| - 1].container)]
  }

  /** Applying the scenario to the targets in order, stopping at the first failure. */
  function ApplyToTargets(s: Scenario, ts: seq<Target>, exitOk: ExitOracle, pos: nat): (r: Shaping)
    ensures s.bandwidth.None? ==> r == Shaping([], true)
    ensures r.ok ==> |r.issued| == (if s.bandwidth.Some? then 2 * |ts| else 0)
    ensures !r.ok ==> |r.issued| > 0
  {
    if ts == [] then Shaping([], true)
    else
      var prev := ApplyToTargets(s, ts[..|ts| - 1], exitOk, pos);
      if !prev.ok then prev
      else
        var step := ApplyBandwidthLimit(s, ts[|ts| - 1].container, exitOk, pos + |prev.issued|);
        Shaping(prev.issued + step.issued, step.ok)
  }

  /**
   * The trace alternates stop and limit commands; the call succeeds exactly when every
   * limit command in it exited with status 0, and a failing call ends on the failing limit.
   */
  lemma ApplyTrace(s: Scenario, ts: seq<Target>, exitOk: ExitOracle, pos: nat)
    ensures var r := ApplyToTargets(s, ts, exitOk, pos);
            Alternates(r.issued)
            && (r.ok <==> forall k :: 0 <= k < |r.issued| && r.issued[k].Limit? ==> exitOk(pos + k, r.issued[k]))
            && (!r.ok ==> r.issued[|r.issued| - 1].Limit? && !exitOk(pos + |r.issued| - 1, r.issued[|r.issued| - 1]))
  {
    ApplyAlternates(s, ts, exitOk, pos);
    ApplyStatuses(s, ts, exitOk, pos);
  }

  /** Stop commands at even positions, limit commands at odd ones. */
  predicate Alternates(cs: seq<Command>)
  {
    forall k :: 0 <= k < |cs| ==> (cs[k].Limit? <==> k % 2 == 1) && (cs[k].Stop? <==> k % 2 == 0)
  }

  lemma {:induction false} ApplyAlternates(s: Scenario, ts: seq<Target>, exitOk: ExitOracle, pos: nat)
    ensures Alternates(ApplyToTargets(s, ts, exitOk, pos).issued)
  {
    if ts != [] {
      var prev := ApplyToTargets(s, ts[..|ts| - 1], exitOk, pos);
      ApplyAlternates(s, ts[..|ts| - 1], exitOk, pos);
      if prev.ok && s.bandwidth.Some? {
        var step := ApplyBandwidthLimit(s, ts[|ts| - 1].container, exitOk, pos + |prev.issued|);
        var issued := prev.issued + step.issued;
        var m := |prev.issued|;
        assert m == 2 * (|ts| - 1);
        assert ApplyToTargets(s, ts, exitOk, pos).issued == issued;
        forall k | 0 <= k < |issued|
          ensures (issued[k].Limit? <==> k % 2 == 1) && (issued[k].Stop? <==> k % 2 == 0)
        {
          if k < m {
            assert issued[k] == prev.issued[k];
          } else if k == m {
            assert issued[k] == step.issued[0] && k % 2 == 0;
          } else {
            assert k == m + 1 && issued[k] == step.issued[1] && k % 2 == 1;
          }
        }
      }
    }
  }

  lemma {:induction false} ApplyStatuses(s: Scenario, ts: seq<Target>, exitOk: ExitOracle, pos: nat)
    ensures var r := ApplyToTargets(s, ts, exitOk, pos);
            (r.ok <==> forall k :: 0 <= k < |r.issued| && r.issued[k].Limit? ==> exitOk(pos + k, r.issued[k]))
            && (!r.ok ==> r.issued[|r.issued| - 1].Limit? && !exitOk(pos + |r.issued| - 1, r.issued[|r.issued| - 1]))
  {
    if ts != [] {
      var prev := ApplyToTargets(s, ts[..|ts| - 1], exitOk, pos);
      ApplyStatuses(s, ts[..|ts| - 1], exitOk, pos);
      if prev.ok && s.bandwidth.Some? {
        var step := ApplyBandwidthLimit(s, ts[|ts| - 1].container, exitOk, pos + |prev.issued|);
        var issued := prev.issued + step.issued;
        assert forall k :: 0 <= k < |prev.issued| ==> issued[k] == prev.issued[k];
        assert issued[|prev.issued|] == step.issued[0] && issued[|prev.issued| + 1] == step.issued[1];
      }
    }
  }

  /** Once applying to a prefix of the targets has failed, later targets add nothing. */
  lemma {:induction false} ApplyStopsAtFailure(s: Scenario, ts: seq<Target>, t: nat, m: nat, exitOk: ExitOracle, pos: nat)
    requires t < m <= |ts|
    requires !ApplyToTargets(s, ts[..t + 1], exitOk, pos).ok
    ensures ApplyToTargets(s, ts[..m], exitOk, pos) == ApplyToTargets(s, ts[..t + 1], exitOk, pos)
    decreases m
  {
    if m > t + 1 {
      ApplyStopsAtFailure(s, ts, t, m - 1, exitOk, pos);
      assert ts[..m][..m - 1] == ts[..m - 1];
      ApplyAfterFailure(s, ts[..m], exitOk, pos);
    }
  }

  lemma ApplyAfterFailure(s: Scenario, ts: seq<Target>, exitOk: ExitOracle, pos: nat)
    requires |ts| > 0 && !ApplyToTargets(s, ts[..|ts| - 1], exitOk, pos).ok
    ensures ApplyToTargets(s, ts, exitOk, pos) == ApplyToTargets(s, ts[..|ts| - 1], exitOk, pos)
  {
  }

  // ---------------------------------------------------------------- transfers

  /** The `error` text of a failed transfer: an HTTP status or the text of a raised exception. */
  datatype PyError = HttpStatus(code: int) | Raised(message: string)

  /** The fields of an add response body; `size` fails when `int(...)` cannot parse it. */
  datatype AddFields = AddFields(hash: string, size: Result<int, string>)

  /**
   * What the add endpoint did: it answered with a status and a body (which fails to decode
   * with an exception text), or the request raised. `elapsed` is the measured time.
   */
  datatype AddResponse =
    | AddReply(status: int, body: Result<AddFields, string>, elapsed: real)
    | AddRaised(message: string, elapsed: real)

  /** What the cat endpoint did: a status and the number of bytes streamed back, or an exception. */
  datatype CatResponse =
    | CatReply(status: int, received: nat, elapsed: real)
    | CatRaised(message: string, elapsed: real)

  /** The dictionary `upload_file` returns. */
  datatype UploadResult =
    | UploadOk(hash: string, uploadTime: real, throughput: real)
    | UploadFail(error: PyError, uploadTime: real)

  /** The dictionary `download_file` returns. */
  datatype DownloadResult =
    | DownloadOk(size: nat, sizeMatch: bool, downloadTime: real, throughput: real)
    | DownloadFail(error: PyError, downloadTime: real)

  /** A rate guarded against a zero duration: `amount / time` when time is positive, else 0. */
  function Rate(amount: real, time: real): (r: real)
    ensures time > 0.0 ==> r * time == amount
    ensures time <= 0.0 ==> r == 0.0
  {
    if time > 0.0 then amount / time else 0.0
  }

  /** `upload_file`: success needs status 200 and a decodable body whose size parses when it is used. */
  function UploadFile(add: AddResponse): (u: UploadResult)
    ensures u.UploadOk? <==> add.AddReply? && add.status == 200 && add.body.Ok?
                             && (add.elapsed > 0.0 ==> add.body.value.size.Ok?)
    ensures u.UploadOk? ==> u.hash == add.body.value.hash
                            && u.throughput == Rate(if add.elapsed > 0.0 then add.body.value.size.value as real else 0.0, add.elapsed)
    ensures u.UploadFail? && add.AddReply? && add.status != 200 ==> u.error == HttpStatus(add.status)
    ensures u.uploadTime == add.elapsed
  {
    match add
    case AddRaised(m, t) => UploadFail(Raised(m), t)
    case AddReply(code, body, t) =>
      if code != 200 then UploadFail(HttpStatus(code), t)
      else match body
        case Err(m) => UploadFail(Raised(m), t)
        case Ok(fields) =>
          if t > 0.0 then
            match fields.size
            case Ok(n) => UploadOk(fields.hash, t, Rate(n as real, t))
            case Err(m) => UploadFail(Raised(m), t)
          else UploadOk(fields.hash, t, 0.0)
  }

  /** `download_file`: success needs status 200; a short or long body is only flagged. */
  function DownloadFile(cat: CatResponse, expected: int): (d: DownloadResult)
    ensures d.DownloadOk? <==> cat.CatReply? && cat.status == 200
    ensures d.DownloadOk? ==> d.size == cat.received && (d.sizeMatch <==> cat.received == expected)
                              && d.throughput == Rate(cat.received as real, cat.elapsed)
    ensures d.DownloadFail? && cat.CatReply? ==> d.error == HttpStatus(cat.status)
    ensures d.downloadTime == cat.elapsed
  {
    match cat
    case CatRaised(m, t) => DownloadFail(Raised(m), t)
    case CatReply(code, n, t) =>
      if code == 200 then DownloadOk(n, n == expected, t, Rate(n as real, t))
      else DownloadFail(HttpStatus(code), t)
  }

  /**
   * One record of `results`. An upload failure carries only the keys the source writes for
   * it (its `success` is the literal False); a transfer carries the full set.
   */
  datatype PyResult =
    | UploadFailed(iteration: int, file: string, fileSize: int, scenario: string,
                   uploadError: PyError, uploadTime: real, downloadTime: real)
    | Transferred(iteration: int, file: string, fileSize: int, scenario: string,
                  scenarioName: string, bandwidth: Option<string>, success: bool, ipfsHash: string,
                  uploadTime: real, downloadTime: real, uploadThroughput: real, downloadThroughput: real,
                  totalTime: real, sizeMatch: bool, downloadError: Option<PyError>)
  {
    /** The record's `success` key. */
    predicate Succeeded()
    {
      Transferred? && success
    }
  }

  /** The result of one iteration and the HTTP requests it sent, in order. */
  datatype Single = Single(record: PyResult, requests: seq<Request>)

  /** The two role targets `run_single_test` looks up. */
  datatype Roles = Roles(upload: Target, download: Target)

  /** A `next(...)` over the targets that finds no target with the role raises StopIteration. */
  datatype Fault = MissingRole(role: string)

  /** The role lookups of `run_single_test`, upload first. */
  function FindRoles(ts: seq<Target>): (r: Result<Roles, Fault>)
    ensures r.Ok? <==> HasRole(ts, UploadRole) && HasRole(ts, DownloadRole)
    ensures r.Ok? ==> r.value.upload.role == UploadRole && r.value.download.role == DownloadRole
    ensures r.Err? ==> r.error == MissingRole(if HasRole(ts, UploadRole) then DownloadRole else UploadRole)
  {
    match FirstWithRole(ts, UploadRole)
    case None => Err(MissingRole(UploadRole))
    case Some(up) =>
      match FirstWithRole(ts, DownloadRole)
      case None => Err(MissingRole(DownloadRole))
      case Some(down) => Ok(Roles(up, down))
  }

  /**
   * One iteration once the targets are known: upload, and download only after a
   * successful upload.
   */
  function Transfer(f: TestFile, s: Scenario, i: int, roles: Roles, add: AddResponse, cat: CatResponse): (t: Single)
    ensures t.record.iteration == i + 1 && t.record.file == f.filename && t.record.fileSize == f.sizeBytes
            && t.record.scenario == s.id && t.record.uploadTime == add.elapsed
    ensures UploadFile(add).UploadFail? ==>
              t.record.UploadFailed? && !t.record.Succeeded() && t.record.downloadTime == 0.0
              && t.requests == [Add(Localhost, roles.upload.apiPort)]
    ensures UploadFile(add).UploadOk? ==>
              t.record.Transferred?
              && t.requests == [Add(Localhost, roles.upload.apiPort),
                                Cat(Localhost, roles.download.apiPort, UploadFile(add).hash)]
              && t.record.scenarioName == s.name && t.record.bandwidth == s.bandwidth
              && (t.record.success <==> cat.CatReply? && cat.status == 200)
              && t.record.downloadTime == cat.elapsed
              && t.record.totalTime == t.record.uploadTime + t.record.downloadTime
              && (t.record.sizeMatch <==> cat.CatReply? && cat.status == 200 && cat.received == f.sizeBytes)
              && (t.record.success <==> t.record.downloadError.None?)
  {
    var up := UploadFile(add);
    match up
    case UploadFail(e, ut) =>
      Single(UploadFailed(i + 1, f.filename, f.sizeBytes, s.id, e, ut, 0.0),
             [Add(Localhost, roles.upload.apiPort)])
    case UploadOk(hash, ut, uThroughput) =>
      var down := DownloadFile(cat, f.sizeBytes);
      var reqs := [Add(Localhost, roles.upload.apiPort), Cat(Localhost, roles.download.apiPort, hash)];
      match down
      case DownloadOk(_, sizeMatch, dt, dThroughput) =>
        Single(Transferred(i + 1, f.filename, f.sizeBytes, s.id, s.name, s.bandwidth, true, hash,
                           ut, dt, uThroughput, dThroughput, ut + dt, sizeMatch, None), reqs)
      case DownloadFail(e, dt) =>
        Single(Transferred(i + 1, f.filename, f.sizeBytes, s.id, s.name, s.bandwidth, false, hash,
                           ut, dt, uThroughput, 0.0, ut + dt, false, Some(e)), reqs)
  }

  /** A failed upload sends no download request, so the download's outcome cannot matter. */
  lemma UploadFailureIgnoresDownload(f: TestFile, s: Scenario, i: int, roles: Roles, add: AddResponse,
                                     cat1: CatResponse, cat2: CatResponse)
    requires UploadFile(add).UploadFail?
    ensures Transfer(f, s, i, roles, add, cat1) == Transfer(f, s, i, roles, add, cat2)
  {
  }

  /** `run_single_test`: the role lookups, then the transfer. */
  function RunSingleTest(f: TestFile, s: Scenario, i: int, ts: seq<Target>, add: AddResponse, cat: CatResponse): (r: Result<Single, Fault>)
    ensures r.Err? <==> FindRoles(ts).Err?
    ensures r.Err? ==> r.error == FindRoles(ts).error
    ensures r.Ok? ==> r.value == Transfer(f, s, i, FindRoles(ts).value, add, cat)
  {
    match FindRoles(ts)
    case Err(e) => Err(e)
    case Ok(roles) => Ok(Transfer(f, s, i, roles, add, cat))
  }

  // ---------------------------------------------------------------- statistics

  /** The statistics dictionary; `variance` stands for the square of `stddev`. */
  datatype PyStats = PyStats(mean: real, median: real, min: real, max: real, variance: real,
                             p95: real, p99: real, count: nat)

  /** `calculate_statistics`: nothing for no samples, otherwise the summary of the samples. */
  function CalculateStatistics(values: seq<real>): (r: Option<PyStats>)
    ensures r.None? <==> |values| == 0
    ensures r.Some? ==>
              var st := r.value;
              st.count == |values|
              && st.min in values && st.max in values && st.p95 in values && st.p99 in values
              && (forall i :: 0 <= i < |values| ==> st.min <= values[i] <= st.max)
              && st.min <= st.mean <= st.max
              && st.min <= st.median <= st.p95 <= st.p99 <= st.max
              && st.variance >= 0.0 && (|values| == 1 ==> st.variance == 0.0 && st.p95 == values[0])
  {
    if |values| == 0 then None
    else
      var n := |values|;
      var sorted := SortReals(values);
      SortedEnds(values, sorted);
      MeanWithin(values);
      MedianWithin(sorted);
      var p95 := if n > 1 then sorted[P95Index(n)] else values[0];
      var p99 := if n > 1 then sorted[P99Index(n)] else values[0];
      assert n > 1 ==> sorted[n / 2] <= sorted[P95Index(n)] <= sorted[P99Index(n)];
      assert n > 1 ==> p95 in multiset(sorted) && p99 in multiset(sorted);
      assert n == 1 ==> sorted == [values[0]] by {
        if n == 1 {
          assert values == [values[0]];
          assert multiset(sorted) == multiset{values[0]};
          assert sorted[0] in multiset(sorted);
        }
      }
      Some(PyStats(Mean(values), Median(sorted), SeqMin(values), SeqMax(values),
                   if n > 1 then SampleVariance(values) else 0.0, p95, p99, n))
  }

  // ---------------------------------------------------------------- one scenario

  /** The environment answering the driver's effects: shaping exit statuses and transfer responses. */
  datatype Environment = Environment(exitOk: ExitOracle, add: TransferKey -> AddResponse, cat: TransferKey -> CatResponse)

  /** The records of a run of iterations. */
  function Records(ts: seq<Single>): (rs: seq<PyResult>)
  {
    seq(|ts|, k requires 0 <= k < |ts| => ts[k].record)
  }

  /** Records of a concatenation are the concatenated records. */
  lemma RecordsAppend(a: seq<Single>, b: seq<Single>)
    ensures Records(a + b) == Records(a) + Records(b)
  {
    assert forall k :: 0 <= k < |a + b| ==> Records(a + b)[k] == (Records(a) + Records(b))[k];
  }

  /** The requests of a run of iterations, in the order they were sent. */
  function RequestsOf(ts: seq<Single>): seq<Request>
  {
    if ts == [] then [] else RequestsOf(ts[..|ts| - 1]) + ts[|ts| - 1].requests
  }

  lemma {:induction false} RequestsAppend(a: seq<Single>, b: seq<Single>)
    ensures RequestsOf(a + b) == RequestsOf(a) + RequestsOf(b)
    decreases |b|
  {
    if b != [] {
      var front, x := b[..|b| - 1], b[|b| - 1];
      assert a + b == (a + front) + [x];
      assert ((a + front) + [x])[..|a + front|] == a + front;
      RequestsAppend(a, front);
      calc {
        RequestsOf(a + b);
        RequestsOf(a + front) + x.requests;
        RequestsOf(a) + RequestsOf(front) + x.requests;
        RequestsOf(a) + RequestsOf(b);
      }
    } else {
      assert a + b == a;
    }
  }

  /** Iteration `i` of file `fi` in scenario `si`. */
  function TransferAt(c: Config, si: nat, fi: nat, i: nat, roles: Roles, env: Environment): Single
    requires si < |c.scenarios| && fi < |c.files|
  {
    var key := TransferKey(si, fi, i);
    Transfer(c.files[fi], c.scenarios[si], i, roles, env.add(key), env.cat(key))
  }

  /** The first `count` iterations on file `fi`. */
  function FileTransfers(c: Config, si: nat, fi: nat, roles: Roles, env: Environment, count: nat): (ts: seq<Single>)
    requires si < |c.scenarios| && fi < |c.files|
    ensures |ts| == count
  {
    if count == 0 then [] else FileTransfers(c, si, fi, roles, env, count - 1) + [TransferAt(c, si, fi, count - 1, roles, env)]
  }

  /** Iteration `i` of a file's run is the transfer for that iteration. */
  lemma {:induction false} FileTransfersAt(c: Config, si: nat, fi: nat, roles: Roles, env: Environment, count: nat, i: nat)
    requires si < |c.scenarios| && fi < |c.files| && i < count
    ensures FileTransfers(c, si, fi, roles, env, count)[i] == TransferAt(c, si, fi, i, roles, env)
    decreases count
  {
    if i < count - 1 {
      FileTransfersAt(c, si, fi, roles, env, count - 1, i);
    }
  }

  /** Every iteration on the first `n` files, file after file. */
  function ScenarioTransfers(c: Config, si: nat, roles: Roles, env: Environment, n: nat): (ts: seq<Single>)
    requires si < |c.scenarios| && n <= |c.files|
  {
    if n == 0 then []
    else ScenarioTransfers(c, si, roles, env, n - 1) + FileTransfers(c, si, n - 1, roles, env, Passes(c.test.iterations))
  }

  /** Each file contributes one record per iteration. */
  lemma {:induction false} ScenarioLength(c: Config, si: nat, roles: Roles, env: Environment, n: nat)
    requires si < |c.scenarios| && n <= |c.files|
    ensures |ScenarioTransfers(c, si, roles, env, n)| == n * Passes(c.test.iterations)
  {
    if n > 0 {
      ScenarioLength(c, si, roles, env, n - 1);
      assert n * Passes(c.test.iterations) == (n - 1) * Passes(c.test.iterations) + Passes(c.test.iterations);
    }
  }

  /** The position of iteration `i` of the file at block `fi`, blocks being `iters` long. */
  function Offset(fi: nat, iters: nat, i: nat): nat
  {
    fi * iters + i
  }

  /** The run over fewer files is a prefix of the run over more. */
  lemma {:induction false} ScenarioPrefix(c: Config, si: nat, roles: Roles, env: Environment, m: nat, n: nat)
    requires si < |c.scenarios| && m <= n <= |c.files|
    ensures ScenarioTransfers(c, si, roles, env, m) <= ScenarioTransfers(c, si, roles, env, n)
    decreases n
  {
    if m < n {
      ScenarioPrefix(c, si, roles, env, m, n - 1);
    }
  }

  /** Results are file-major and iteration-minor: iteration `i` of file `fi` sits at `fi * iterations + i`. */
  lemma ScenarioOrder(c: Config, si: nat, roles: Roles, env: Environment, n: nat, fi: nat, i: nat)
    requires si < |c.scenarios| && n <= |c.files| && fi < n && i < Passes(c.test.iterations)
    ensures var iters := Passes(c.test.iterations);
            |ScenarioTransfers(c, si, roles, env, n)| == n * iters
            && Offset(fi, iters, i) < n * iters
            && ScenarioTransfers(c, si, roles, env, n)[Offset(fi, iters, i)] == TransferAt(c, si, fi, i, roles, env)
  {
    var iters := Passes(c.test.iterations);
    var before, upto := ScenarioTransfers(c, si, roles, env, fi), ScenarioTransfers(c, si, roles, env, fi + 1);
    ScenarioPrefix(c, si, roles, env, fi + 1, n);
    ScenarioLength(c, si, roles, env, fi);
    ScenarioLength(c, si, roles, env, n);
    FileTransfersAt(c, si, fi, roles, env, iters, i);
    assert upto == before + FileTransfers(c, si, fi, roles, env, iters);
    BlockIndex(before, upto, ScenarioTransfers(c, si, roles, env, n), fi, n, iters, i, TransferAt(c, si, fi, i, roles, env));
  }

  /** Every record of a scenario's run names that scenario. */
  lemma {:induction false} ScenarioTransfersNameScenario(c: Config, si: nat, roles: Roles, env: Environment, n: nat)
    requires si < |c.scenarios| && n <= |c.files|
    ensures forall k :: 0 <= k < |ScenarioTransfers(c, si, roles, env, n)| ==>
              ScenarioTransfers(c, si, roles, env, n)[k].record.scenario == c.scenarios[si].id
  {
    if n > 0 {
      ScenarioTransfersNameScenario(c, si, roles, env, n - 1);
      var prev := ScenarioTransfers(c, si, roles, env, n - 1);
      var ts := ScenarioTransfers(c, si, roles, env, n);
      var iters := Passes(c.test.iterations);
      forall k | 0 <= k < |ts| ensures ts[k].record.scenario == c.scenarios[si].id {
        if k >= |prev| {
          FileTransfersAt(c, si, n - 1, roles, env, iters, k - |prev|);
        }
      }
    }
  }

  /** What a loop of `run_scenario_tests` has produced so far: its records, or the fault that escaped, and the requests sent. */
  datatype Progress = Progress(results: Result<seq<PyResult>, Fault>, requests: seq<Request>)

  /** The iteration loop on file `fi`: `count` calls of `run_single_test`, the first fault ending it. */
  function IterationsRun(c: Config, si: nat, fi: nat, env: Environment, count: nat): Progress
    requires si < |c.scenarios| && fi < |c.files|
  {
    if count == 0 then Progress(Ok([]), [])
    else
      var p := IterationsRun(c, si, fi, env, count - 1);
      if p.results.Err? then p
      else
        var key := TransferKey(si, fi, count - 1);
        match RunSingleTest(c.files[fi], c.scenarios[si], count - 1, c.targets, env.add(key), env.cat(key))
        case Err(e) => Progress(Err(e), p.requests)
        case Ok(t) => Progress(Ok(p.results.value + [t.record]), p.requests + t.requests)
  }

  /** Once a fault has escaped the iteration loop, later iterations change nothing. */
  lemma {:induction false} IterationsRunSticks(c: Config, si: nat, fi: nat, env: Environment, k: nat, n: nat)
    requires si < |c.scenarios| && fi < |c.files| && k <= n
    requires IterationsRun(c, si, fi, env, k).results.Err?
    ensures IterationsRun(c, si, fi, env, n) == IterationsRun(c, si, fi, env, k)
    decreases n
  {
    if n > k {
      IterationsRunSticks(c, si, fi, env, k, n - 1);
    }
  }

  /** One more iteration with both roles present extends the records and the requests by that transfer's. */
  lemma IterationsRunStep(c: Config, si: nat, fi: nat, env: Environment, count: nat, roles: Roles)
    requires si < |c.scenarios| && fi < |c.files| && 0 < count && FindRoles(c.targets) == Ok(roles)
    requires var prev := FileTransfers(c, si, fi, roles, env, count - 1);
             IterationsRun(c, si, fi, env, count - 1) == Progress(Ok(Records(prev)), RequestsOf(prev))
    ensures var ts := FileTransfers(c, si, fi, roles, env, count);
            IterationsRun(c, si, fi, env, count) == Progress(Ok(Records(ts)), RequestsOf(ts))
  {
    var prev := FileTransfers(c, si, fi, roles, env, count - 1);
    var ts := FileTransfers(c, si, fi, roles, env, count);
    var key := TransferKey(si, fi, count - 1);
    assert ts == prev + [ts[count - 1]] && ts[..count - 1] == prev;
    assert RunSingleTest(c.files[fi], c.scenarios[si], count - 1, c.targets, env.add(key), env.cat(key))
           == Ok(ts[count - 1]);
    RecordsAppend(prev, [ts[count - 1]]);
    assert Records([ts[count - 1]]) == [ts[count - 1].record];
    assert RequestsOf(ts) == RequestsOf(prev) + ts[count - 1].requests;
  }

  /**
   * The iteration loop either runs every transfer, when both roles exist, or stops at its
   * first call with the missing role and without a request.
   */
  lemma {:induction false} IterationsRunTransfers(c: Config, si: nat, fi: nat, env: Environment, count: nat)
    requires si < |c.scenarios| && fi < |c.files|
    ensures match FindRoles(c.targets)
            case Ok(roles) =>
              var ts := FileTransfers(c, si, fi, roles, env, count);
              IterationsRun(c, si, fi, env, count) == Progress(Ok(Records(ts)), RequestsOf(ts))
            case Err(e) =>
              IterationsRun(c, si, fi, env, count) == Progress(if count == 0 then Ok([]) else Err(e), [])
  {
    if count == 0 {
      assert Records([]) == [];
    } else {
      IterationsRunTransfers(c, si, fi, env, count - 1);
      match FindRoles(c.targets)
      case Ok(roles) => IterationsRunStep(c, si, fi, env, count, roles);
      case Err(e) =>
    }
  }

  /** The file loop: the iteration loop on each of the first `n` files, the first fault ending it. */
  function FilesRun(c: Config, si: nat, env: Environment, n: nat): Progress
    requires si < |c.scenarios| && n <= |c.files|
  {
    if n == 0 then Progress(Ok([]), [])
    else
      var p := FilesRun(c, si, env, n - 1);
      if p.results.Err? then p
      else
        var q := IterationsRun(c, si, n - 1, env, Passes(c.test.iterations));
        Progress(if q.results.Err? then q.results else Ok(p.results.value + q.results.value),
                 p.requests + q.requests)
  }

  /** Once a fault has escaped the file loop, later files change nothing. */
  lemma {:induction false} FilesRunSticks(c: Config, si: nat, env: Environment, k: nat, n: nat)
    requires si < |c.scenarios| && k <= n <= |c.files|
    requires FilesRun(c, si, env, k).results.Err?
    ensures FilesRun(c, si, env, n) == FilesRun(c, si, env, k)
    decreases n
  {
    if n > k {
      FilesRunSticks(c, si, env, k, n - 1);
    }
  }

  /** A file loop without a fault so far, followed by a fault-free file, extends the records and the requests. */
  lemma FilesRunOkStep(c: Config, si: nat, env: Environment, m: nat,
                       done: seq<PyResult>, doneRequests: seq<Request>, more: seq<PyResult>, moreRequests: seq<Request>)
    requires si < |c.scenarios| && m < |c.files|
    requires FilesRun(c, si, env, m) == Progress(Ok(done), doneRequests)
    requires IterationsRun(c, si, m, env, Passes(c.test.iterations)) == Progress(Ok(more), moreRequests)
    ensures FilesRun(c, si, env, m + 1) == Progress(Ok(done + more), doneRequests + moreRequests)
  {
  }

  /** One more file with both roles present extends the records and the requests by that file's transfers. */
  lemma FilesRunStep(c: Config, si: nat, env: Environment, m: nat, roles: Roles)
    requires si < |c.scenarios| && m < |c.files| && FindRoles(c.targets) == Ok(roles)
    requires var done := ScenarioTransfers(c, si, roles, env, m);
             FilesRun(c, si, env, m) == Progress(Ok(Records(done)), RequestsOf(done))
    ensures var ts := ScenarioTransfers(c, si, roles, env, m + 1);
            FilesRun(c, si, env, m + 1) == Progress(Ok(Records(ts)), RequestsOf(ts))
  {
    var done := ScenarioTransfers(c, si, roles, env, m);
    var current := FileTransfers(c, si, m, roles, env, Passes(c.test.iterations));
    IterationsRunTransfers(c, si, m, env, Passes(c.test.iterations));
    FilesRunOkStep(c, si, env, m, Records(done), RequestsOf(done), Records(current), RequestsOf(current));
    RequestsAppend(done, current);
    RecordsAppend(done, current);
  }

  /** The file loop runs every transfer of the scenario, or fails on its first call without a request. */
  lemma {:induction false} FilesRunTransfers(c: Config, si: nat, env: Environment, n: nat)
    requires si < |c.scenarios| && n <= |c.files|
    ensures match FindRoles(c.targets)
            case Ok(roles) =>
              var ts := ScenarioTransfers(c, si, roles, env, n);
              FilesRun(c, si, env, n) == Progress(Ok(Records(ts)), RequestsOf(ts))
            case Err(e) =>
              FilesRun(c, si, env, n) == Progress(if n == 0 || Passes(c.test.iterations) == 0 then Ok([]) else Err(e), [])
  {
    if n == 0 {
      assert Records([]) == [];
    } else {
      var m := n - 1;
      FilesRunTransfers(c, si, env, m);
      match FindRoles(c.targets)
      case Ok(roles) =>
        FilesRunStep(c, si, env, m, roles);
        assert m + 1 == n;
      case Err(e) => IterationsRunTransfers(c, si, m, env, Passes(c.test.iterations));
    }
  }

  /** What `run_scenario_tests` returns and which commands and requests it issues. */
  datatype ScenarioOutcome = ScenarioOutcome(results: Result<seq<PyResult>, Fault>, issued: seq<Command>, requests: seq<Request>)

  /**
   * `run_scenario_tests` for scenario `si`, its commands starting at trace position `pos`:
   * shaping on every target (a failure returns an empty list at once, with nothing removed),
   * every iteration of every file, then a removal for every target.
   */
  function ScenarioRun(c: Config, si: nat, env: Environment, pos: nat): ScenarioOutcome
    requires si < |c.scenarios|
  {
    var sh := ApplyToTargets(c.scenarios[si], c.targets, env.exitOk, pos);
    if !sh.ok then ScenarioOutcome(Ok([]), sh.issued, [])
    else if |c.files| == 0 || Passes(c.test.iterations) == 0 then
      ScenarioOutcome(Ok([]), sh.issued + Removals(c.targets), [])
    else match FindRoles(c.targets)
      case Err(f) => ScenarioOutcome(Err(f), sh.issued, [])
      case Ok(roles) =>
        var ts := ScenarioTransfers(c, si, roles, env, |c.files|);
        ScenarioOutcome(Ok(Records(ts)), sh.issued + Removals(c.targets), RequestsOf(ts))
  }

  /** `ScenarioRun` read as the code runs it: shaping, the file loop, and the removals unless a fault escaped. */
  lemma ScenarioRunByLoops(c: Config, si: nat, env: Environment, pos: nat)
    requires si < |c.scenarios|
    ensures var sh := ApplyToTargets(c.scenarios[si], c.targets, env.exitOk, pos);
            var p := FilesRun(c, si, env, |c.files|);
            ScenarioRun(c, si, env, pos)
              == if !sh.ok then ScenarioOutcome(Ok([]), sh.issued, [])
                 else if p.results.Err? then ScenarioOutcome(p.results, sh.issued, p.requests)
                 else ScenarioOutcome(p.results, sh.issued + Removals(c.targets), p.requests)
  {
    var sh := ApplyToTargets(c.scenarios[si], c.targets, env.exitOk, pos);
    var p := FilesRun(c, si, env, |c.files|);
    var none := |c.files| == 0 || Passes(c.test.iterations) == 0;
    FilesRunTransfers(c, si, env, |c.files|);
    if sh.ok {
      match FindRoles(c.targets)
      case Err(e) =>
        assert p == Progress(if none then Ok([]) else Err(e), []);
      case Ok(roles) =>
        var ts := ScenarioTransfers(c, si, roles, env, |c.files|);
        assert p == Progress(Ok(Records(ts)), RequestsOf(ts));
        if none {
          ScenarioLength(c, si, roles, env, |c.files|);
          assert Records(ts) == [] && RequestsOf(ts) == [];
        }
    }
  }

  /**
   * A failed shaping call aborts the scenario: no result, no request and no removal; each
   * stop command issued is followed by its limit command, and the last limit is the one that failed.
   */
  lemma ShapingFailureAborts(c: Config, si: nat, env: Environment, pos: nat)
    requires si < |c.scenarios|
    requires !ApplyToTargets(c.scenarios[si], c.targets, env.exitOk, pos).ok
    ensures var o := ScenarioRun(c, si, env, pos);
            o.results == Ok([]) && o.requests == []
            && |o.issued| % 2 == 0
            && (forall k :: 0 <= k < |o.issued| ==> (o.issued[k].Stop? <==> k % 2 == 0))
            && !env.exitOk(pos + |o.issued| - 1, o.issued[|o.issued| - 1])
  {
    ApplyTrace(c.scenarios[si], c.targets, env.exitOk, pos);
  }

  /**
   * On the normal path the scenario yields `|files| * iterations` records, file-major and
   * iteration-minor, and ends with one removal per target.
   */
  lemma ScenarioResults(c: Config, si: nat, env: Environment, pos: nat, fi: nat, i: nat)
    requires si < |c.scenarios| && fi < |c.files| && i < Passes(c.test.iterations)
    requires ApplyToTargets(c.scenarios[si], c.targets, env.exitOk, pos).ok && FindRoles(c.targets).Ok?
    ensures var o := ScenarioRun(c, si, env, pos);
            var iters := Passes(c.test.iterations);
            o.results.Ok? && |o.results.value| == |c.files| * iters
            && Offset(fi, iters, i) < |o.results.value|
            && o.results.value[Offset(fi, iters, i)] == TransferAt(c, si, fi, i, FindRoles(c.targets).value, env).record
            && |o.issued| >= |c.targets|
            && o.issued[|o.issued| - |c.targets|..] == Removals(c.targets)
  {
    var roles := FindRoles(c.targets).value;
    var sh := ApplyToTargets(c.scenarios[si], c.targets, env.exitOk, pos);
    var o := ScenarioRun(c, si, env, pos);
    assert o.issued == sh.issued + Removals(c.targets);
    ScenarioOrder(c, si, roles, env, |c.files|, fi, i);
    ScenarioLength(c, si, roles, env, |c.files|);
  }

  // ---------------------------------------------------------------- summary

  /** The statistics of a list of samples the source only summarises when it is non-empty. */
  function StatsOf(values: seq<real>): (st: PyStats)
    requires |values| > 0
    ensures st.count == |values| && st.min <= st.mean <= st.max
  {
    CalculateStatistics(values).value
  }

  function ScenarioKey(r: PyResult): string { r.scenario }
  function FileKey(r: PyResult): string { r.file }
  function SuccessKey(r: PyResult): bool { r.Succeeded() }
  function EnabledKey(s: Scenario): bool { s.enabled }

  function UploadTimes(rs: seq<PyResult>): (v: seq<real>)
    ensures |v| == |rs|
  {
    seq(|rs|, k requires 0 <= k < |rs| => rs[k].uploadTime)
  }

  function DownloadTimes(rs: seq<PyResult>): (v: seq<real>)
    ensures |v| == |rs|
  {
    seq(|rs|, k requires 0 <= k < |rs| => rs[k].downloadTime)
  }

  /** Only transfer records carry throughput keys. */
  function UploadThroughputs(rs: seq<PyResult>): (v: seq<real>)
    requires forall k :: 0 <= k < |rs| ==> rs[k].Transferred?
    ensures |v| == |rs|
  {
    seq(|rs|, k requires 0 <= k < |rs| && rs[k].Transferred? => rs[k].uploadThroughput)
  }

  function DownloadThroughputs(rs: seq<PyResult>): (v: seq<real>)
    requires forall k :: 0 <= k < |rs| ==> rs[k].Transferred?
    ensures |v| == |rs|
  {
    seq(|rs|, k requires 0 <= k < |rs| && rs[k].Transferred? => rs[k].downloadThroughput)
  }

  datatype FileSummary = FileSummary(file: string, size: string, sizeBytes: int, successRate: real,
                                     uploadStats: PyStats, downloadStats: PyStats,
                                     uploadThroughputStats: PyStats, downloadThroughputStats: PyStats)

  datatype ScenarioSummary = ScenarioSummary(scenario: string, bandwidth: Option<string>, fileSummaries: seq<FileSummary>)

  /** `test_info`; `totalRuntime` is present only in the summary handed to the display. */
  datatype TestInfo = TestInfo(name: string, description: string, totalIterations: int, filesTested: nat,
                               scenariosTested: nat, totalRuntime: Option<real>)

  datatype Summary = Summary(testInfo: TestInfo, scenarioSummaries: seq<ScenarioSummary>)

  /** `len(successful) / len(file_results)`. */
  function SuccessRate(successes: nat, total: nat): (r: real)
    requires 0 < successes <= total
    ensures 0.0 < r <= 1.0
    ensures r * (total as real) == successes as real
  {
    QuotientWithin(successes as real, total as real, 0.0, 1.0);
    (successes as real) / (total as real)
  }

  /**
   * The summary of one file within one scenario's results: present only when the file has a
   * successful result; its rate is successes over the file's results and its statistics
   * cover the successful results only.
   */
  function FileSummaryOf(f: TestFile, scenarioResults: seq<PyResult>): (r: Option<FileSummary>)
    ensures var fileResults := Filter(scenarioResults, FileKey, f.filename);
            var successful := Filter(fileResults, SuccessKey, true);
            (r.Some? <==> |successful| > 0)
            && (r.Some? ==>
                  r.value.file == f.filename && r.value.size == f.size && r.value.sizeBytes == f.sizeBytes
                  && r.value.successRate == SuccessRate(|successful|, |fileResults|)
                  && r.value.uploadStats == StatsOf(UploadTimes(successful))
                  && r.value.downloadStats == StatsOf(DownloadTimes(successful))
                  && r.value.uploadStats.count == |successful| && r.value.downloadStats.count == |successful|
                  && r.value.uploadThroughputStats.count == |successful|
                  && r.value.downloadThroughputStats.count == |successful|)
  {
    var fileResults := Filter(scenarioResults, FileKey, f.filename);
    var successful := Filter(fileResults, SuccessKey, true);
    if |successful| == 0 then None
    else
      assert forall k :: 0 <= k < |successful| ==> SuccessKey(successful[k]);
      Some(FileSummary(f.filename, f.size, f.sizeBytes, SuccessRate(|successful|, |fileResults|),
                       StatsOf(UploadTimes(successful)), StatsOf(DownloadTimes(successful)),
                       StatsOf(UploadThroughputs(successful)), StatsOf(DownloadThroughputs(successful))))
  }

  function FileSummaryFn(scenarioResults: seq<PyResult>): TestFile -> Option<FileSummary>
  {
    f => FileSummaryOf(f, scenarioResults)
  }

  /** The summary of one scenario: skipped when it is disabled or has no results. */
  function ScenarioSummaryOf(c: Config, results: seq<PyResult>, s: Scenario): (r: Option<ScenarioSummary>)
    ensures r.Some? <==> s.enabled && |Filter(results, ScenarioKey, s.id)| > 0
    ensures r.Some? ==> r.value.scenario == s.name && r.value.bandwidth == s.bandwidth
  {
    var scenarioResults := Filter(results, ScenarioKey, s.id);
    if !s.enabled || |scenarioResults| == 0 then None
    else Some(ScenarioSummary(s.name, s.bandwidth, Collect(c.files, FileSummaryFn(scenarioResults))))
  }

  function ScenarioSummaryFn(c: Config, results: seq<PyResult>): Scenario -> Option<ScenarioSummary>
  {
    s => ScenarioSummaryOf(c, results, s)
  }

  /** `generate_summary` over the given results. */
  function SummaryOf(c: Config, results: seq<PyResult>, runtime: Option<real>): Summary
  {
    Summary(TestInfo(c.test.name, c.test.description, c.test.iterations, |c.files|,
                     |Filter(c.scenarios, EnabledKey, true)|, runtime),
            Collect(c.scenarios, ScenarioSummaryFn(c, results)))
  }

  /**
   * The summary lists, in configuration order, exactly the enabled scenarios that have
   * results, and within each exactly the files with at least one success.
   */
  lemma SummaryContents(c: Config, results: seq<PyResult>, runtime: Option<real>)
    ensures var ss := SummaryOf(c, results, runtime).scenarioSummaries;
            var kept := Picked(c.scenarios, ScenarioSummaryFn(c, results));
            |ss| == |kept|
            && (forall i :: 0 <= i < |c.scenarios| ==>
                  (i in kept <==> c.scenarios[i].enabled && |Filter(results, ScenarioKey, c.scenarios[i].id)| > 0))
            && (forall j :: 0 <= j < |ss| ==>
                  var s := c.scenarios[kept[j]];
                  var sr := Filter(results, ScenarioKey, s.id);
                  ss[j] == ScenarioSummary(s.name, s.bandwidth, Collect(c.files, FileSummaryFn(sr)))
                  && |ss[j].fileSummaries| == |Picked(c.files, FileSummaryFn(sr))|
                  && (forall fi :: 0 <= fi < |c.files| ==>
                        (fi in Picked(c.files, FileSummaryFn(sr)) <==>
                           |Filter(Filter(sr, FileKey, c.files[fi].filename), SuccessKey, true)| > 0)))
  {
    var kept := Picked(c.scenarios, ScenarioSummaryFn(c, results));
    CollectPicked(c.scenarios, ScenarioSummaryFn(c, results));
    forall j | 0 <= j < |kept|
      ensures var sr := Filter(results, ScenarioKey, c.scenarios[kept[j]].id);
              |Collect(c.files, FileSummaryFn(sr))| == |Picked(c.files, FileSummaryFn(sr))|
              && (forall fi :: 0 <= fi < |c.files| ==>
                    (fi in Picked(c.files, FileSummaryFn(sr)) <==>
                       |Filter(Filter(sr, FileKey, c.files[fi].filename), SuccessKey, true)| > 0))
    {
      FileSummariesPicked(c.files, Filter(results, ScenarioKey, c.scenarios[kept[j]].id));
    }
  }

  /** Within one scenario's results, the file summaries are exactly those of the files with a success. */
  lemma FileSummariesPicked(files: seq<TestFile>, sr: seq<PyResult>)
    ensures |Collect(files, FileSummaryFn(sr))| == |Picked(files, FileSummaryFn(sr))|
    ensures forall fi :: 0 <= fi < |files| ==>
              (fi in Picked(files, FileSummaryFn(sr)) <==>
                 |Filter(Filter(sr, FileKey, files[fi].filename), SuccessKey, true)| > 0)
  {
    CollectPicked(files, FileSummaryFn(sr));
    forall fi | 0 <= fi < |files|
      ensures FileSummaryFn(sr)(files[fi]).Some? <==>
                |Filter(Filter(sr, FileKey, files[fi].filename), SuccessKey, true)| > 0
    {
      var r := FileSummaryOf(files[fi], sr);
    }
  }

  // ---------------------------------------------------------------- the whole run

  /** One write of the result file: the results so far and, when asked for, the summary. */
  datatype SavedFile = SavedFile(results: seq<PyResult>, summary: Option<Summary>)

  /** The observable state of a run: the results field, the traces of commands, requests and writes, and an escaped fault. */
  datatype RunState = RunState(results: seq<PyResult>, commands: seq<Command>, requests: seq<Request>,
                               writes: seq<SavedFile>, fault: Option<Fault>)

  /** One pass of the `run_all_tests` loop: a disabled scenario is skipped; an enabled one runs and is persisted. */
  function ScenarioStep(c: Config, si: nat, st: RunState, env: Environment): RunState
    requires si < |c.scenarios|
  {
    if st.fault.Some? || !c.scenarios[si].enabled then st
    else
      var o := ScenarioRun(c, si, env, |st.commands|);
      match o.results
      case Err(f) => st.(commands := st.commands + o.issued, fault := Some(f))
      case Ok(rs) =>
        RunState(st.results + rs, st.commands + o.issued, st.requests + o.requests,
                 st.writes + [SavedFile(st.results + rs, None)], None)
  }

  /** The loop of `run_all_tests` over the first `n` scenarios. */
  function RunScenarios(c: Config, n: nat, st: RunState, env: Environment): RunState
    requires n <= |c.scenarios|
  {
    if n == 0 then st else ScenarioStep(c, n - 1, RunScenarios(c, n - 1, st, env), env)
  }

  /** `run_all_tests`: the loop, then a final write carrying the summary. */
  function RunAll(c: Config, st: RunState, env: Environment): RunState
  {
    var r := RunScenarios(c, |c.scenarios|, st, env);
    if r.fault.Some? then r else r.(writes := r.writes + [SavedFile(r.results, Some(SummaryOf(c, r.results, None)))])
  }

  lemma {:induction false} FaultSticks(c: Config, m: nat, n: nat, st: RunState, env: Environment)
    requires m <= n <= |c.scenarios|
    requires RunScenarios(c, m, st, env).fault.Some?
    ensures RunScenarios(c, n, st, env) == RunScenarios(c, m, st, env)
    decreases n
  {
    if n > m {
      FaultSticks(c, m, n - 1, st, env);
    }
  }

  /** The last write mirrors the results field. */
  predicate Persisted(st: RunState)
  {
    st.writes != [] ==> st.writes[|st.writes| - 1].results == st.results
  }

  /** The result belongs to one of the first `n` scenarios that are enabled. */
  predicate FromEnabled(c: Config, n: nat, r: PyResult)
    requires n <= |c.scenarios|
  {
    exists i :: 0 <= i < n && c.scenarios[i].enabled && r.scenario == c.scenarios[i].id
  }

  /** One scenario pass keeps the file in step with the results and only adds results of that scenario. */
  lemma StepPersists(c: Config, si: nat, st: RunState, env: Environment)
    requires si < |c.scenarios| && Persisted(st)
    ensures var r := ScenarioStep(c, si, st, env);
            Persisted(r)
            && st.results <= r.results && st.writes <= r.writes && |r.writes| <= |st.writes| + 1
            && (r.writes == st.writes ==> r.results == st.results)
            && (|r.writes| > |st.writes| ==> r.writes[|st.writes|].summary.None?)
            && (r.results != st.results ==> c.scenarios[si].enabled)
            && (forall k :: |st.results| <= k < |r.results| ==> r.results[k].scenario == c.scenarios[si].id)
  {
    var s := c.scenarios[si];
    if st.fault.None? && s.enabled {
      var o := ScenarioRun(c, si, env, |st.commands|);
      if o.results.Ok? && |c.files| > 0 && Passes(c.test.iterations) > 0 && FindRoles(c.targets).Ok?
         && ApplyToTargets(s, c.targets, env.exitOk, |st.commands|).ok {
        ScenarioTransfersNameScenario(c, si, FindRoles(c.targets).value, env, |c.files|);
      }
    }
  }

  /**
   * The loop only grows the results and the writes; every write it adds carries no summary;
   * after each scenario (and at a crash) the file holds every result gathered so far; and
   * each new result belongs to an enabled scenario.
   */
  lemma {:induction false} RunScenariosPersists(c: Config, n: nat, st: RunState, env: Environment)
    requires n <= |c.scenarios| && Persisted(st)
    ensures var r := RunScenarios(c, n, st, env);
            Persisted(r)
            && st.results <= r.results && st.writes <= r.writes
            && (r.writes == st.writes ==> r.results == st.results)
            && (forall w :: |st.writes| <= w < |r.writes| ==> r.writes[w].summary.None?)
            && (forall k :: |st.results| <= k < |r.results| ==> FromEnabled(c, n, r.results[k]))
  {
    if n > 0 {
      RunScenariosPersists(c, n - 1, st, env);
      var prev := RunScenarios(c, n - 1, st, env);
      StepPersists(c, n - 1, prev, env);
      var r := RunScenarios(c, n, st, env);
      forall k | |st.results| <= k < |r.results| ensures FromEnabled(c, n, r.results[k]) {
        if k < |prev.results| {
          assert r.results[k] == prev.results[k];
          var i :| 0 <= i < n - 1 && c.scenarios[i].enabled && prev.results[k].scenario == c.scenarios[i].id;
          assert c.scenarios[i].enabled && r.results[k].scenario == c.scenarios[i].id;
        } else {
          assert c.scenarios[n - 1].enabled && r.results[k].scenario == c.scenarios[n - 1].id;
        }
      }
    }
  }

  /** A completed run ends with one write holding every result and the summary of them. */
  lemma RunAllSavesSummary(c: Config, st: RunState, env: Environment)
    requires Persisted(st)
    ensures var r := RunAll(c, st, env);
            r.fault.None? ==>
              r.writes[|r.writes| - 1] == SavedFile(r.results, Some(SummaryOf(c, r.results, None)))
              && r.writes[|r.writes| - 1].summary.value.testInfo.totalRuntime.None?
    ensures var r := RunAll(c, st, env);
            r.fault.Some? ==> Persisted(r) && st.results <= r.results
  {
    RunScenariosPersists(c, |c.scenarios|, st, env);
  }

  /** The Python tester: its configuration, its `results` field and the traces of its effects. */
  class Tester {
    const config: Config
    var results: seq<PyResult>
    var commands: seq<Command>
    var requests: seq<Request>
    var writes: seq<SavedFile>

    function State(): RunState
      reads this
    {
      RunState(results, commands, requests, writes, None)
    }

    constructor (config: Config)
      ensures this.config == config && results == [] && commands == [] && requests == [] && writes == []
    {
      this.config := config;
      results := [];
      commands := [];
      requests := [];
      writes := [];
    }

    /** The shaping loop of `run_scenario_tests`: every target in order, stopping at the first failure. */
    method ApplyLimits(s: Scenario, env: Environment) returns (ok: bool)
      modifies this`commands
      ensures var sh := ApplyToTargets(s, config.targets, env.exitOk, |old(commands)|);
              ok == sh.ok && commands == old(commands) + sh.issued
    {
      var targets := config.targets;
      ghost var start := |commands|;
      var t := 0;
      while t < |targets|
        invariant 0 <= t <= |targets|
        invariant ApplyToTargets(s, targets[..t], env.exitOk, start).ok
        invariant commands == old(commands) + ApplyToTargets(s, targets[..t], env.exitOk, start).issued
      {
        assert targets[..t + 1][..t] == targets[..t];
        var step := ApplyBandwidthLimit(s, targets[t].container, env.exitOk, |commands|);
        AppendAssociates(old(commands), ApplyToTargets(s, targets[..t], env.exitOk, start).issued, step.issued);
        commands := commands + step.issued;
        if !step.ok {
          ApplyStopsAtFailure(s, targets, t, |targets|, env.exitOk, start);
          assert targets[..|targets|] == targets;
          return false;
        }
        t := t + 1;
      }
      assert targets[..t] == targets;
      return true;
    }

    /** The iteration loop of `run_scenario_tests` for file `fi`. */
    method RunIterations(si: nat, fi: nat, env: Environment) returns (r: Result<seq<PyResult>, Fault>)
      requires si < |config.scenarios| && fi < |config.files|
      modifies this`requests
      ensures var p := IterationsRun(config, si, fi, env, Passes(config.test.iterations));
              Progress(r, requests) == Progress(p.results, old(requests) + p.requests)
    {
      var iters := Passes(config.test.iterations);
      r := Ok([]);
      var i := 0;
      while i < iters && r.Ok?
        invariant 0 <= i <= iters
        invariant var p := IterationsRun(config, si, fi, env, i);
                  Progress(r, requests) == Progress(p.results, old(requests) + p.requests)
      {
        ghost var p := IterationsRun(config, si, fi, env, i);
        var key := TransferKey(si, fi, i);
        var one := RunSingleTest(config.files[fi], config.scenarios[si], i, config.targets, env.add(key), env.cat(key));
        if one.Err? {
          r := Err(one.error);
        } else {
          AppendAssociates(old(requests), p.requests, one.value.requests);
          r := Ok(r.value + [one.value.record]);
          requests := requests + one.value.requests;
        }
        i := i + 1;
      }
      if r.Err? {
        IterationsRunSticks(config, si, fi, env, i, iters);
      }
    }

    /** The removal loop of `run_scenario_tests`: one stop command per target. */
    method RemoveLimits()
      modifies this`commands
      ensures commands == old(commands) + Removals(config.targets)
    {
      var targets := config.targets;
      var u := 0;
      while u < |targets|
        invariant 0 <= u <= |targets|
        invariant commands == old(commands) + Removals(targets[..u])
      {
        assert targets[..u + 1][..u] == targets[..u];
        AppendAssociates(old(commands), Removals(targets[..u]), [RemoveBandwidthLimit(targets[u].container)]);
        commands := commands + [RemoveBandwidthLimit(targets[u].container)];
        u := u + 1;
      }
      assert targets[..u] == targets;
    }

    /** The file loop of `run_scenario_tests`: every iteration of every file, file after file. */
    method RunFiles(si: nat, env: Environment) returns (r: Result<seq<PyResult>, Fault>)
      requires si < |config.scenarios|
      modifies this`requests
      ensures r == FilesRun(config, si, env, |config.files|).results
      ensures requests == old(requests) + FilesRun(config, si, env, |config.files|).requests
    {
      r := Ok([]);
      ghost var base := requests;
      var fi := 0;
      while fi < |config.files| && r.Ok?
        invariant 0 <= fi <= |config.files|
        invariant r == FilesRun(config, si, env, fi).results
        invariant requests == base + FilesRun(config, si, env, fi).requests
      {
        r := RunFile(si, fi, env, base, r);
        fi := fi + 1;
      }
      if fi < |config.files| {
        FilesRunSticks(config, si, env, fi, |config.files|);
      }
    }

    /** One pass of the file loop of `run_scenario_tests`: file `fi`'s iterations, after a fault-free start. */
    method RunFile(si: nat, fi: nat, env: Environment, ghost base: seq<Request>, r: Result<seq<PyResult>, Fault>)
      returns (r': Result<seq<PyResult>, Fault>)
      requires si < |config.scenarios| && fi < |config.files| && r.Ok?
      requires r == FilesRun(config, si, env, fi).results
      requires requests == base + FilesRun(config, si, env, fi).requests
      modifies this`requests
      ensures r' == FilesRun(config, si, env, fi + 1).results
      ensures requests == base + FilesRun(config, si, env, fi + 1).requests
    {
      ghost var before := FilesRun(config, si, env, fi).requests;
      var fileResults := RunIterations(si, fi, env);
      ghost var more := IterationsRun(config, si, fi, env, Passes(config.test.iterations)).requests;
      AppendAssociates(base, before, more);
      r' := if fileResults.Err? then fileResults else Ok(r.value + fileResults.value);
    }

    /** `run_scenario_tests` for scenario `si`; an escaping StopIteration is the `Err` outcome. */
    method RunScenarioTests(si: nat, env: Environment) returns (r: Result<seq<PyResult>, Fault>)
      requires si < |config.scenarios|
      modifies this`commands, this`requests
      ensures var o := ScenarioRun(config, si, env, |old(commands)|);
              r == o.results && commands == old(commands) + o.issued && requests == old(requests) + o.requests
    {
      ScenarioRunByLoops(config, si, env, |commands|);
      ghost var sh := ApplyToTargets(config.scenarios[si], config.targets, env.exitOk, |commands|);
      var ok := ApplyLimits(config.scenarios[si], env);
      if !ok {
        return Ok([]);
      }
      r := RunFiles(si, env);
      if r.Err? {
        return r;
      }
      RemoveLimits();
      AppendAssociates(old(commands), sh.issued, Removals(config.targets));
    }

    /** The file loop of `generate_summary`: a summary for each file with a successful record, in file order. */
    method SummariseFiles(scenarioResults: seq<PyResult>) returns (fileSummaries: seq<FileSummary>)
      ensures fileSummaries == Collect(config.files, FileSummaryFn(scenarioResults))
    {
      fileSummaries := [];
      var fi := 0;
      while fi < |config.files|
        invariant 0 <= fi <= |config.files|
        invariant fileSummaries == Collect(config.files[..fi], FileSummaryFn(scenarioResults))
      {
        CollectSnocAt(config.files, fi, FileSummaryFn(scenarioResults));
        var fs := FileSummaryOf(config.files[fi], scenarioResults);
        assert FileSummaryFn(scenarioResults)(config.files[fi]) == fs;
        if fs.Some? {
          fileSummaries := fileSummaries + [fs.value];
        }
        fi := fi + 1;
      }
      assert config.files[..fi] == config.files;
    }

    /** `generate_summary` over the current results. */
    method GenerateSummary() returns (summary: Summary)
      ensures summary == SummaryOf(config, results, None)
    {
      var scenarioSummaries: seq<ScenarioSummary> := [];
      var si := 0;
      while si < |config.scenarios|
        invariant 0 <= si <= |config.scenarios|
        invariant scenarioSummaries == Collect(config.scenarios[..si], ScenarioSummaryFn(config, results))
      {
        var s := config.scenarios[si];
        assert config.scenarios[..si + 1] == config.scenarios[..si] + [s];
        CollectSnoc(config.scenarios[..si], s, ScenarioSummaryFn(config, results));
        if s.enabled {
          var scenarioResults := Filter(results, ScenarioKey, s.id);
          if |scenarioResults| > 0 {
            var fileSummaries := SummariseFiles(scenarioResults);
            scenarioSummaries := scenarioSummaries + [ScenarioSummary(s.name, s.bandwidth, fileSummaries)];
          }
        }
        si := si + 1;
      }
      assert config.scenarios[..si] == config.scenarios;
      var info := TestInfo(config.test.name, config.test.description, config.test.iterations, |config.files|,
                           |Filter(config.scenarios, EnabledKey, true)|, None);
      summary := Summary(info, scenarioSummaries);
    }

    /** `save_results`: one more write of the result file, with the summary only when asked. */
    method SaveResults(includeSummary: bool)
      modifies this`writes
      ensures writes == old(writes) + [SavedFile(results, if includeSummary then Some(SummaryOf(config, results, None)) else None)]
    {
      var summary: Option<Summary> := None;
      if includeSummary {
        var s := GenerateSummary();
        summary := Some(s);
      }
      writes := writes + [SavedFile(results, summary)];
    }

    /** One pass of the `run_all_tests` loop: an enabled scenario's results are appended and persisted. */
    method RunScenario(si: nat, env: Environment) returns (fault: Option<Fault>)
      requires si < |config.scenarios|
      modifies this`results, this`commands, this`requests, this`writes
      ensures State().(fault := fault) == ScenarioStep(config, si, old(State()), env)
    {
      fault := None;
      if config.scenarios[si].enabled {
        var r := RunScenarioTests(si, env);
        if r.Err? {
          fault := Some(r.error);
          return;
        }
        results := results + r.value;
        SaveResults(false);
      }
    }

    /**
     * `run_all_tests`; `runtime` is the measured wall-clock time. A fault is the exception
     * that escapes it; otherwise `shown` is the summary handed to the display.
     */
    method RunAllTests(env: Environment, runtime: real) returns (fault: Option<Fault>, shown: Option<Summary>)
      modifies this
      ensures State().(fault := fault) == RunAll(config, old(State()), env)
      ensures fault.None? ==> shown == Some(SummaryOf(config, results, Some(runtime)))
      ensures fault.Some? ==> shown.None?
    {
      ghost var st0 := State();
      var si := 0;
      while si < |config.scenarios|
        invariant 0 <= si <= |config.scenarios|
        invariant RunScenarios(config, si, st0, env) == State()
      {
        fault := RunScenario(si, env);
        if fault.Some? {
          FaultSticks(config, si + 1, |config.scenarios|, st0, env);
          return fault, None;
        }
        si := si + 1;
      }
      var summary := GenerateSummary();
      shown := Some(summary.(testInfo := summary.testInfo.(totalRuntime := Some(runtime))));
      SaveResults(true);
      fault := None;
    }
  }
}
