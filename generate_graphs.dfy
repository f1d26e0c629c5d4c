/**
 * `aggregate_results` of `scripts/generate_graphs.py`: one pass that collects every result's
 * times and throughputs under its file name, and a second pass that writes the averages, the
 * averages in megabits per second and the download/upload time ratio into each entry.
 */
module GenerateGraphs {
  import opened Outcomes
  import opened Grouping
  import opened Samples
  import opened ResultRecords
  import PyRunner
  import GoRunner

  // ---------------------------------------------------------------------------------------------
  // The first loop

  /** `aggregated[filename]` after the first loop: the size and the four lists. */
  datatype FileSamples = FileSamples(fileSize: int, uploadTimes: seq<real>, downloadTimes: seq<real>,
                                     uploadThroughputs: seq<real>, downloadThroughputs: seq<real>)

  type Aggregated = seq<Entry<string, FileSamples>>

  function FileNameOf(r: Record): Option<string> { r.file }
  function UploadTimeOf(r: Record): Option<real> { r.uploadTime }
  function DownloadTimeOf(r: Record): Option<real> { r.downloadTime }
  function UploadThroughputOf(r: Record): Option<real> { r.uploadThroughput }
  function DownloadThroughputOf(r: Record): Option<real> { r.downloadThroughput }

  /** The first of the four appended keys that is absent, in the order the appends read them. */
  function MeasureError(r: Record): (e: Option<KeyError>)
    ensures e.None? <==> r.uploadTime.Some? && r.downloadTime.Some? && r.uploadThroughput.Some? && r.downloadThroughput.Some?
  {
    if r.uploadTime.None? then Some(KeyError("upload_time"))
    else if r.downloadTime.None? then Some(KeyError("download_time"))
    else if r.uploadThroughput.None? then Some(KeyError("upload_throughput"))
    else if r.downloadThroughput.None? then Some(KeyError("download_throughput"))
    else None
  }

  /** The four appends. */
  function AddSample(d: FileSamples, r: Record): FileSamples
    requires MeasureError(r).None?
  {
    FileSamples(d.fileSize, d.uploadTimes + [r.uploadTime.value], d.downloadTimes + [r.downloadTime.value],
                d.uploadThroughputs + [r.uploadThroughput.value], d.downloadThroughputs + [r.downloadThroughput.value])
  }

  /** The appends into the existing entry for `k`. */
  function AppendAt(es: Aggregated, k: string, r: Record): (out: Aggregated)
    requires MeasureError(r).None?
    ensures Keys(out) == Keys(es)
  {
    if es == [] then []
    else if es[0].key == k then [Entry(k, AddSample(es[0].val, r))] + es[1..]
    else [es[0]] + AppendAt(es[1..], k, r)
  }

  /**
   * One iteration of the first loop: `result['file']`; for a new file name the entry is created
   * with `result['fileSize']` and empty lists; then the four appends.
   */
  function Step(acc: Aggregated, r: Record): Result<Aggregated, KeyError>
  {
    if r.file.None? then Err(KeyError("file"))
    else
      var f := r.file.value;
      if Find(acc, f).None? && r.fileSize.None? then Err(KeyError("fileSize"))
      else
        var created := if Find(acc, f).None? then acc + [Entry(f, FileSamples(r.fileSize.value, [], [], [], []))] else acc;
        if MeasureError(r).Some? then Err(MeasureError(r).value)
        else Ok(AppendAt(created, f, r))
  }

  /** The dictionary after the first loop, or the KeyError that stops it. */
  function Aggregate(results: seq<Record>): Result<Aggregated, KeyError>
  {
    if results == [] then Ok([])
    else
      match Aggregate(results[..|results| - 1])
      case Err(e) => Err(e)
      case Ok(acc) => Step(acc, results[|results| - 1])
  }

  lemma AggregateSnoc(results: seq<Record>, i: nat)
    requires i < |results| && Aggregate(results[..i]).Ok?
    ensures Aggregate(results[..i + 1]) == Step(Aggregate(results[..i]).value, results[i])
  {
    assert results[..i + 1][..i] == results[..i];
  }

  lemma {:induction false} AggregateStops(results: seq<Record>, n: nat)
    requires n <= |results| && Aggregate(results[..n]).Err?
    ensures Aggregate(results) == Aggregate(results[..n])
    decreases |results| - n
  {
    if n < |results| {
      assert results[..n + 1][..n] == results[..n];
      AggregateStops(results, n + 1);
    } else {
      assert results[..n] == results;
    }
  }

  /** The first loop of `aggregate_results`. */
  method CollectByFile(results: seq<Record>) returns (r: Result<Aggregated, KeyError>)
    ensures r == Aggregate(results)
  {
    var aggregated: Aggregated := [];
    var i := 0;
    while i < |results|
      invariant 0 <= i <= |results|
      invariant Aggregate(results[..i]) == Ok(aggregated)
    {
      AggregateSnoc(results, i);
      var result := results[i];
      if result.file.None? {
        AggregateStops(results, i + 1);
        return Err(KeyError("file"));
      }
      var filename := result.file.value;
      if Find(aggregated, filename).None? {
        if result.fileSize.None? {
          AggregateStops(results, i + 1);
          return Err(KeyError("fileSize"));
        }
        aggregated := aggregated + [Entry(filename, FileSamples(result.fileSize.value, [], [], [], []))];
      }
      var missing := MeasureError(result);
      if missing.Some? {
        AggregateStops(results, i + 1);
        return Err(missing.value);
      }
      aggregated := AppendAt(aggregated, filename, result);
      i := i + 1;
    }
    assert results[..i] == results;
    r := Ok(aggregated);
  }

  // ---------------------------------------------------------------------------------------------
  // What the first loop collects

  lemma {:induction false} FindAppendAt(es: Aggregated, k: string, r: Record, k': string)
    requires MeasureError(r).None?
    ensures Find(AppendAt(es, k, r), k') ==
              if k' == k && Find(es, k).Some? then Some(AddSample(Find(es, k).value, r)) else Find(es, k')
  {
    if es != [] && es[0].key != k && es[0].key != k' {
      FindAppendAt(es[1..], k, r, k');
    } else if es != [] && es[0].key != k {
      assert Find(AppendAt(es, k, r), k') == Some(es[0].val);
    }
  }

  lemma {:induction false} FindAppended<A>(es: seq<Entry<string, A>>, e: Entry<string, A>, k: string)
    requires e.key !in Keys(es)
    ensures Find(es + [e], k) == if k == e.key then Some(e.val) else Find(es, k)
  {
    if es != [] {
      assert (es + [e])[1..] == es[1..] + [e];
      FindAppended(es[1..], e, k);
    } else {
      assert Find([e], k) == if k == e.key then Some(e.val) else Find([e][1..], k);
    }
  }

  /** The results with file name `f`, in input order. */
  function WithFile(results: seq<Record>, f: string): seq<Record>
  {
    Filter(results, FileNameOf, Some(f))
  }

  /** What the entry of file `f` holds after a loop over `results` that did not stop. */
  predicate EntryOf(results: seq<Record>, f: string, d: FileSamples)
  {
    var rs := WithFile(results, f);
    && rs != [] && rs[0].fileSize == Some(d.fileSize)
    && d.uploadTimes == Collect(rs, UploadTimeOf) && d.downloadTimes == Collect(rs, DownloadTimeOf)
    && d.uploadThroughputs == Collect(rs, UploadThroughputOf) && d.downloadThroughputs == Collect(rs, DownloadThroughputOf)
  }

  /** One step of the loop keeps every entry described by `EntryOf`. */
  lemma StepFind(results: seq<Record>, f: string)
    requires results != [] && Aggregate(results).Ok?
    requires var prefix := results[..|results| - 1];
             forall g :: Find(Aggregate(prefix).value, g) ==
                           if WithFile(prefix, g) == [] then None else Some(FindValue(prefix, g))
    ensures Find(Aggregate(results).value, f) == if WithFile(results, f) == [] then None else Some(FindValue(results, f))
  {
    var prefix, r := results[..|results| - 1], results[|results| - 1];
    var acc := Aggregate(prefix).value;
    var g := r.file.value;
    var created := if Find(acc, g).None? then acc + [Entry(g, FileSamples(r.fileSize.value, [], [], [], []))] else acc;
    if Find(acc, g).None? {
      FindAppended(acc, Entry(g, FileSamples(r.fileSize.value, [], [], [], [])), f);
    }
    FindAppendAt(created, g, r, f);
    if f == g {
      CollectSnoc(WithFile(prefix, f), r, UploadTimeOf);
      CollectSnoc(WithFile(prefix, f), r, DownloadTimeOf);
      CollectSnoc(WithFile(prefix, f), r, UploadThroughputOf);
      CollectSnoc(WithFile(prefix, f), r, DownloadThroughputOf);
      if WithFile(prefix, f) == [] {
        assert WithFile(results, f) == [r];
      } else {
        assert WithFile(results, f) == WithFile(prefix, f) + [r];
        assert WithFile(results, f)[0] == WithFile(prefix, f)[0];
      }
    }
  }

  /** The value `EntryOf` describes. */
  function FindValue(results: seq<Record>, f: string): FileSamples
    requires WithFile(results, f) != []
  {
    var rs := WithFile(results, f);
    FileSamples(if rs[0].fileSize.Some? then rs[0].fileSize.value else 0,
                Collect(rs, UploadTimeOf), Collect(rs, DownloadTimeOf),
                Collect(rs, UploadThroughputOf), Collect(rs, DownloadThroughputOf))
  }

  lemma {:induction false} AggregateFindAll(results: seq<Record>)
    requires Aggregate(results).Ok?
    ensures forall f :: Find(Aggregate(results).value, f) ==
                          if WithFile(results, f) == [] then None else Some(FindValue(results, f))
  {
    if results != [] {
      AggregateFindAll(results[..|results| - 1]);
      forall f ensures Find(Aggregate(results).value, f) ==
                         if WithFile(results, f) == [] then None else Some(FindValue(results, f)) {
        StepFind(results, f);
      }
    }
  }

  /** The first size read for each file was present. */
  lemma {:induction false} FirstSizePresent(results: seq<Record>, f: string)
    requires Aggregate(results).Ok? && WithFile(results, f) != []
    ensures WithFile(results, f)[0].fileSize.Some?
  {
    var prefix, r := results[..|results| - 1], results[|results| - 1];
    if WithFile(prefix, f) != [] {
      FirstSizePresent(prefix, f);
      if r.file == Some(f) {
        assert WithFile(results, f) == WithFile(prefix, f) + [r];
      }
    } else {
      AggregateFindAll(prefix);
      assert WithFile(results, f) == [r];
    }
  }

  /**
   * Exactly one entry per distinct file name, holding the `fileSize` of that file's first
   * result and, in input order, the four measurements of every result with that name: no
   * success filter is applied.
   */
  lemma AggregateFind(results: seq<Record>, f: string)
    requires Aggregate(results).Ok?
    ensures Find(Aggregate(results).value, f).Some? <==> exists i :: 0 <= i < |results| && results[i].file == Some(f)
    ensures Find(Aggregate(results).value, f).Some? ==> EntryOf(results, f, Find(Aggregate(results).value, f).value)
  {
    AggregateFindAll(results);
    FilterMembers(results, FileNameOf, Some(f));
    if WithFile(results, f) != [] {
      FirstSizePresent(results, f);
      var d := FindValue(results, f);
      assert Find(Aggregate(results).value, f) == Some(d);
      assert EntryOf(results, f, d);
      var x := WithFile(results, f)[0];
      assert x in results;
    } else {
      forall i | 0 <= i < |results| ensures results[i].file != Some(f) {
        assert results[i] in results;
      }
    }
  }

  /** No file name has two entries. */
  lemma {:induction false} AggregateDistinct(results: seq<Record>)
    requires Aggregate(results).Ok?
    ensures DistinctKeys(Aggregate(results).value)
  {
    if results != [] {
      var prefix, r := results[..|results| - 1], results[|results| - 1];
      AggregateDistinct(prefix);
      var acc := Aggregate(prefix).value;
      var g := r.file.value;
      if Find(acc, g).None? {
        var created := acc + [Entry(g, FileSamples(r.fileSize.value, [], [], [], []))];
        AppendNewDistinct(acc, Entry(g, FileSamples(r.fileSize.value, [], [], [], [])));
        AppendAtDistinct(created, g, r);
      } else {
        AppendAtDistinct(acc, g, r);
      }
    }
  }

  lemma AppendNewDistinct<A>(es: seq<Entry<string, A>>, e: Entry<string, A>)
    requires DistinctKeys(es) && e.key !in Keys(es)
    ensures DistinctKeys(es + [e])
  {
    var out := es + [e];
    forall i, j | 0 <= i < j < |out| ensures out[i].key != out[j].key {
      if j == |es| {
        assert out[i].key == Keys(es)[i];
      }
    }
  }

  lemma AppendAtDistinct(es: Aggregated, k: string, r: Record)
    requires MeasureError(r).None? && DistinctKeys(es)
    ensures DistinctKeys(AppendAt(es, k, r))
  {
    var out := AppendAt(es, k, r);
    forall i, j | 0 <= i < j < |out| ensures out[i].key != out[j].key {
      assert out[i].key == Keys(out)[i] == Keys(es)[i] == es[i].key;
      assert out[j].key == Keys(out)[j] == Keys(es)[j] == es[j].key;
    }
  }

  /** Every successfully read list is as long as the list of results with that name. */
  lemma {:induction false} AggregateReadable(results: seq<Record>)
    requires Aggregate(results).Ok?
    ensures forall i :: 0 <= i < |results| ==> results[i].file.Some? && MeasureError(results[i]).None?
  {
    if results != [] {
      AggregateReadable(results[..|results| - 1]);
      assert forall i :: 0 <= i < |results| - 1 ==> results[i] == results[..|results| - 1][i];
    }
  }

  /** When every element has a value, collecting keeps them all, in order. */
  lemma {:induction false} CollectEvery<T, U>(xs: seq<T>, f: T -> Option<U>)
    requires forall i :: 0 <= i < |xs| ==> f(xs[i]).Some?
    ensures |Collect(xs, f)| == |xs| && forall i :: 0 <= i < |xs| ==> Collect(xs, f)[i] == f(xs[i]).value
  {
    if xs != [] {
      assert forall i :: 0 <= i < |xs| - 1 ==> xs[..|xs| - 1][i] == xs[i];
      CollectEvery(xs[..|xs| - 1], f);
    }
  }

  /** The four lists of an entry have the same length: the number of results with that file name. */
  lemma EntryLengths(results: seq<Record>, f: string)
    requires Aggregate(results).Ok? && Find(Aggregate(results).value, f).Some?
    ensures var d := Find(Aggregate(results).value, f).value;
            && |d.uploadTimes| == |d.downloadTimes| == |d.uploadThroughputs| == |d.downloadThroughputs| == |WithFile(results, f)|
            && |WithFile(results, f)| > 0
  {
    AggregateFind(results, f);
    AggregateReadable(results);
    var rs := WithFile(results, f);
    FilterMembers(results, FileNameOf, Some(f));
    assert forall i :: 0 <= i < |rs| ==> rs[i] in results;
    assert forall i :: 0 <= i < |rs| ==> MeasureError(rs[i]).None?;
    CollectEvery(rs, UploadTimeOf);
    CollectEvery(rs, DownloadTimeOf);
    CollectEvery(rs, UploadThroughputOf);
    CollectEvery(rs, DownloadThroughputOf);
  }

  // ---------------------------------------------------------------------------------------------
  // The second loop

  /** numpy's float division: a zero divisor gives an infinity of the numerator's sign, or NaN. */
  datatype Quotient = Finite(value: real) | PosInf | NegInf | NaN

  function Divide(a: real, b: real): (q: Quotient)
    ensures q.Finite? ==> q.value * b == a
  {
    if b != 0.0 then Finite(a / b)
    else if a > 0.0 then PosInf
    else if a < 0.0 then NegInf
    else NaN
  }

  /** The entry with the fields the second loop writes into it. */
  datatype FileSummary = FileSummary(samples: FileSamples, avgUploadTime: real, avgDownloadTime: real,
                                     avgUploadMbps: real, avgDownloadMbps: real, ratio: Quotient)

  predicate HasSamples(d: FileSamples)
  {
    |d.uploadTimes| > 0 && |d.downloadTimes| > 0 && |d.uploadThroughputs| > 0 && |d.downloadThroughputs| > 0
  }

  /** The five assignments of the second loop for one file. */
  function Averages(d: FileSamples): FileSummary
    requires HasSamples(d)
  {
    var up, down := Mean(d.uploadTimes), Mean(d.downloadTimes);
    FileSummary(d, up, down, Mean(d.uploadThroughputs) * 8.0 / 1000000.0,
                Mean(d.downloadThroughputs) * 8.0 / 1000000.0, Divide(down, up))
  }

  /** Bytes per second to megabits per second. */
  function Mbps(x: real): real { x * 8.0 / 1000000.0 }

  function MbpsAll(xs: seq<real>): (ys: seq<real>)
    ensures |ys| == |xs| && forall i :: 0 <= i < |xs| ==> ys[i] == Mbps(xs[i])
  {
    if xs == [] then [] else MbpsAll(xs[..|xs| - 1]) + [Mbps(xs[|xs| - 1])]
  }

  lemma {:induction false} SumMbps(xs: seq<real>)
    ensures Sum(MbpsAll(xs)) == Mbps(Sum(xs))
  {
    if xs != [] {
      SumMbps(xs[..|xs| - 1]);
      assert MbpsAll(xs)[..|xs| - 1] == MbpsAll(xs[..|xs| - 1]);
    }
  }

  /**
   * The average in megabits per second is the average of the per-iteration rates in megabits
   * per second, and lies between the slowest and the fastest of them.
   */
  lemma MbpsOfMean(xs: seq<real>)
    requires |xs| > 0
    ensures Mean(xs) * 8.0 / 1000000.0 == Mean(MbpsAll(xs))
    ensures SeqMin(MbpsAll(xs)) <= Mean(xs) * 8.0 / 1000000.0 <= SeqMax(MbpsAll(xs))
  {
    SumMbps(xs);
    ScaledQuotient(Sum(xs), |xs| as real);
    MeanWithin(MbpsAll(xs));
  }

  lemma ScaledQuotient(s: real, n: real)
    requires n > 0.0
    ensures Mbps(s) / n == (s / n) * 8.0 / 1000000.0
  {
    var q := s / n;
    assert q * n == s;
    assert (q * 8.0 / 1000000.0) * n == s * 8.0 / 1000000.0;
  }

  /** The average times lie between the fastest and the slowest iteration. */
  lemma AveragesWithin(d: FileSamples)
    requires HasSamples(d)
    ensures SeqMin(d.uploadTimes) <= Averages(d).avgUploadTime <= SeqMax(d.uploadTimes)
    ensures SeqMin(d.downloadTimes) <= Averages(d).avgDownloadTime <= SeqMax(d.downloadTimes)
  {
    MeanWithin(d.uploadTimes);
    MeanWithin(d.downloadTimes);
  }

  /** The average rates are the averages of the per-iteration rates in megabits per second. */
  lemma AveragesMbps(d: FileSamples)
    requires HasSamples(d)
    ensures Averages(d).avgUploadMbps == Mean(MbpsAll(d.uploadThroughputs))
    ensures Averages(d).avgDownloadMbps == Mean(MbpsAll(d.downloadThroughputs))
  {
    MbpsOfMean(d.uploadThroughputs);
    MbpsOfMean(d.downloadThroughputs);
  }

  /**
   * The ratio is finite exactly when the average upload time is not zero, and then times the
   * average upload time it gives the average download time.
   */
  lemma AveragesRatio(d: FileSamples)
    requires HasSamples(d)
    ensures Averages(d).ratio.Finite? <==> Averages(d).avgUploadTime != 0.0
    ensures Averages(d).ratio.Finite? ==> Averages(d).ratio.value * Averages(d).avgUploadTime == Averages(d).avgDownloadTime
  {
  }

  predicate AllHaveSamples(agg: Aggregated)
  {
    forall i :: 0 <= i < |agg| ==> HasSamples(agg[i].val)
  }

  /** The second loop: `for filename in aggregated`, writing the averages into each entry. */
  method ComputeAverages(agg: Aggregated) returns (out: seq<Entry<string, FileSummary>>)
    requires AllHaveSamples(agg)
    ensures |out| == |agg|
    ensures forall i :: 0 <= i < |agg| ==> out[i].key == agg[i].key && out[i].val == Averages(agg[i].val)
  {
    out := [];
    var i := 0;
    while i < |agg|
      invariant 0 <= i <= |agg| && |out| == i
      invariant forall j :: 0 <= j < i ==> out[j].key == agg[j].key && out[j].val == Averages(agg[j].val)
    {
      var data := agg[i].val;
      var avgUpload := Mean(data.uploadTimes);
      var avgDownload := Mean(data.downloadTimes);
      var uploadMbps := Mean(data.uploadThroughputs) * 8.0 / 1000000.0;
      var downloadMbps := Mean(data.downloadThroughputs) * 8.0 / 1000000.0;
      out := out + [Entry(agg[i].key, FileSummary(data, avgUpload, avgDownload, uploadMbps, downloadMbps,
                                                   Divide(avgDownload, avgUpload)))];
      i := i + 1;
    }
  }

  /** Every entry the first loop creates has received at least one sample. */
  lemma AggregatedHasSamples(results: seq<Record>)
    requires Aggregate(results).Ok?
    ensures AllHaveSamples(Aggregate(results).value)
  {
    var agg := Aggregate(results).value;
    AggregateDistinct(results);
    forall i | 0 <= i < |agg| ensures HasSamples(agg[i].val) {
      FindDistinct(agg, i);
      EntryLengths(results, agg[i].key);
    }
  }

  /**
   * `aggregate_results(results)`: the KeyError of the first loop, or one entry per file name
   * in order of first appearance, with its samples and averages.
   */
  method AggregateResults(results: seq<Record>) returns (r: Result<seq<Entry<string, FileSummary>>, KeyError>)
    ensures r.Err? <==> Aggregate(results).Err?
    ensures r.Err? ==> r.error == Aggregate(results).error
    ensures r.Ok? ==> AllHaveSamples(Aggregate(results).value) && |r.value| == |Aggregate(results).value|
                      && forall i :: 0 <= i < |r.value| ==>
                           r.value[i].key == Aggregate(results).value[i].key
                           && r.value[i].val == Averages(Aggregate(results).value[i].val)
  {
    var aggregated := CollectByFile(results);
    if aggregated.Err? {
      return Err(aggregated.error);
    }
    AggregatedHasSamples(results);
    var out := ComputeAverages(aggregated.value);
    r := Ok(out);
  }

  // ---------------------------------------------------------------------------------------------
  // Which saved runs can be aggregated

  /** Reading the four measurements of one result. */
  function MeasureView(r: Record): Result<(), KeyError>
  {
    if MeasureError(r).Some? then Err(MeasureError(r).value) else Ok(())
  }

  /**
   * With `file` and `fileSize` always present, the first loop fails exactly when reading the
   * measurements of the results in order fails, and with the same error.
   */
  lemma {:induction false} AggregateMeasures(results: seq<Record>)
    requires forall i :: 0 <= i < |results| ==> results[i].file.Some? && results[i].fileSize.Some?
    ensures Aggregate(results).Err? <==> ReadAll(results, MeasureView).Err?
    ensures Aggregate(results).Err? ==> Aggregate(results).error == ReadAll(results, MeasureView).error
  {
    if results != [] {
      var prefix := results[..|results| - 1];
      assert forall i :: 0 <= i < |prefix| ==> prefix[i] == results[i];
      AggregateMeasures(prefix);
    }
  }

  /**
   * A Python run cannot be aggregated once one upload failed, because the driver omits the
   * throughputs from that record; otherwise every key is present.
   */
  lemma PyAggregate(py: seq<PyRunner.PyResult>)
    ensures Aggregate(PySaved(py)).Err? <==> exists i :: 0 <= i < |py| && py[i].UploadFailed?
    ensures Aggregate(PySaved(py)).Err? ==> Aggregate(PySaved(py)).error == KeyError("upload_throughput")
  {
    var saved := PySaved(py);
    AggregateMeasures(saved);
    ReadAllClass(saved, MeasureView, (r: Record) => r.uploadThroughput.None?, KeyError("upload_throughput"));
    if exists i :: 0 <= i < |py| && py[i].UploadFailed? {
      var i :| 0 <= i < |py| && py[i].UploadFailed?;
      assert saved[i].uploadThroughput.None?;
    }
  }

  /** A Go run always aggregates. */
  lemma GoAggregate(go: seq<GoRunner.GoResult>)
    ensures Aggregate(GoSaved(go)).Ok?
  {
    AggregateMeasures(GoSaved(go));
    ReadAllFacts(GoSaved(go), MeasureView);
  }
}
