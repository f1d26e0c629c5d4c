/**
 * The result records as the analysis scripts read them back from the saved JSON file: a
 * dictionary per iteration in which any key may be absent. The Python driver writes two shapes
 * of dictionary (an upload failure carries only eight keys, and neither shape carries
 * `random_data_gen_time`); the Go driver serialises every field of its `TestResult`. Reading an
 * absent key with `result[key]` raises KeyError, which the readers below model as an error value.
 */
module ResultRecords {
  import opened Outcomes
  import PyRunner
  import GoRunner

  /**
   * One saved result: the keys the analysis scripts read. `bandwidth` is doubly optional: the
   * key may be absent, or present and JSON null (Python None, Go `nil`), or a string.
   */
  datatype Record = Record(scenario: Option<string>, scenarioName: Option<string>,
                           bandwidth: Option<Option<string>>, file: Option<string>, fileSize: Option<int>,
                           success: Option<bool>, ipfsHash: Option<string>,
                           uploadTime: Option<real>, downloadTime: Option<real>,
                           uploadThroughput: Option<real>, downloadThroughput: Option<real>,
                           totalTime: Option<real>, randomDataGenTime: Option<real>)

  /** `result[key]` on an absent key. */
  datatype KeyError = KeyError(key: string)

  /** Every key a reader may look up is present. */
  predicate Complete(r: Record)
  {
    && r.scenario.Some? && r.scenarioName.Some? && r.bandwidth.Some? && r.file.Some?
    && r.fileSize.Some? && r.success.Some? && r.ipfsHash.Some? && r.uploadTime.Some?
    && r.downloadTime.Some? && r.uploadThroughput.Some? && r.downloadThroughput.Some?
    && r.totalTime.Some? && r.randomDataGenTime.Some?
  }

  /** The dictionary `run_single_test` returns, as the JSON file holds it. */
  function FromPy(r: PyRunner.PyResult): Record
  {
    match r
    case UploadFailed(_, file, fileSize, scenario, _, uploadTime, downloadTime) =>
      Record(Some(scenario), None, None, Some(file), Some(fileSize), Some(false), None,
             Some(uploadTime), Some(downloadTime), None, None, None, None)
    case Transferred(_, file, fileSize, scenario, scenarioName, bandwidth, success, ipfsHash,
                     uploadTime, downloadTime, uploadThroughput, downloadThroughput, totalTime, _, _) =>
      Record(Some(scenario), Some(scenarioName), Some(bandwidth), Some(file), Some(fileSize),
             Some(success), Some(ipfsHash), Some(uploadTime), Some(downloadTime),
             Some(uploadThroughput), Some(downloadThroughput), Some(totalTime), None)
  }

  /** A Go `TestResult` as `json.MarshalIndent` writes it: every read key is present. */
  function FromGo(r: GoRunner.GoResult): Record
  {
    Record(Some(r.scenario), Some(r.scenarioName), Some(r.bandwidth), Some(r.file), Some(r.fileSize),
           Some(r.success), Some(r.ipfsHash), Some(r.uploadTime), Some(r.downloadTime),
           Some(r.uploadThroughput), Some(r.downloadThroughput), Some(r.totalTime),
           Some(r.randomDataGenTime))
  }

  /**
   * A Go record is complete and reads back the values the driver recorded, and its `success`
   * key is the record's success flag.
   */
  lemma GoRecordComplete(r: GoRunner.GoResult)
    ensures Complete(FromGo(r))
    ensures FromGo(r).success == Some(r.success) && FromGo(r).file == Some(r.file)
    ensures FromGo(r).bandwidth == Some(r.bandwidth)
  {
  }

  /**
   * A Python record's `success` key is present and mirrors the driver's success flag; an
   * upload failure lacks `scenario_name`, `bandwidth` and the throughput keys, and no Python
   * record carries `random_data_gen_time`.
   */
  lemma PyRecordKeys(r: PyRunner.PyResult)
    ensures FromPy(r).success == Some(r.Succeeded())
    ensures FromPy(r).scenario.Some? && FromPy(r).file.Some? && FromPy(r).fileSize.Some?
    ensures FromPy(r).uploadTime.Some? && FromPy(r).downloadTime.Some?
    ensures FromPy(r).randomDataGenTime.None?
    ensures FromPy(r).scenarioName.None? <==> r.UploadFailed?
    ensures FromPy(r).bandwidth.None? <==> r.UploadFailed?
    ensures FromPy(r).uploadThroughput.None? <==> r.UploadFailed?
  {
  }

  /**
   * A loop that reads each record (or each group of records) in turn with `view`: the readings
   * in order, or the KeyError of the first one that cannot be read (Python stops at the first raise).
   */
  function ReadAll<S, T>(rs: seq<S>, view: S -> Result<T, KeyError>): Result<seq<T>, KeyError>
  {
    if rs == [] then Ok([])
    else
      match ReadAll(rs[..|rs| - 1], view)
      case Err(e) => Err(e)
      case Ok(prefix) =>
        match view(rs[|rs| - 1])
        case Err(e) => Err(e)
        case Ok(x) => Ok(prefix + [x])
  }

  /**
   * Reading succeeds exactly when every record can be read, and then yields the reading of each
   * record at its position; a failure is the error of the first record that cannot be read.
   */
  lemma {:induction false} ReadAllFacts<S, T>(rs: seq<S>, view: S -> Result<T, KeyError>)
    ensures ReadAll(rs, view).Ok? <==> forall i :: 0 <= i < |rs| ==> view(rs[i]).Ok?
    ensures ReadAll(rs, view).Ok? ==>
              |ReadAll(rs, view).value| == |rs|
              && forall i :: 0 <= i < |rs| ==> ReadAll(rs, view).value[i] == view(rs[i]).value
    ensures ReadAll(rs, view).Err? ==>
              exists i :: 0 <= i < |rs| && view(rs[i]) == Err(ReadAll(rs, view).error)
                          && forall j :: 0 <= j < i ==> view(rs[j]).Ok?
  {
    if rs != [] {
      var prefix := rs[..|rs| - 1];
      ReadAllFacts(prefix, view);
      assert forall i :: 0 <= i < |prefix| ==> rs[i] == prefix[i];
      if ReadAll(prefix, view).Err? {
        var i :| 0 <= i < |prefix| && view(prefix[i]) == Err(ReadAll(prefix, view).error)
                 && forall j :: 0 <= j < i ==> view(prefix[j]).Ok?;
        assert view(rs[i]) == Err(ReadAll(rs, view).error);
      } else if view(rs[|rs| - 1]).Err? {
        assert view(rs[|rs| - 1]) == Err(ReadAll(rs, view).error);
      }
    }
  }

  /** Reading one more record extends the readings, or fails with its error. */
  lemma ReadAllSnoc<S, T>(rs: seq<S>, i: nat, view: S -> Result<T, KeyError>)
    requires i < |rs| && ReadAll(rs[..i], view).Ok?
    ensures ReadAll(rs[..i + 1], view) ==
              match view(rs[i])
              case Err(e) => Err(e)
              case Ok(x) => Ok(ReadAll(rs[..i], view).value + [x])
  {
    assert rs[..i + 1][..i] == rs[..i];
  }

  /** Once a prefix fails, the error is the error of the whole sequence. */
  lemma {:induction false} ReadAllStops<S, T>(rs: seq<S>, n: nat, view: S -> Result<T, KeyError>)
    requires n <= |rs| && ReadAll(rs[..n], view).Err?
    ensures ReadAll(rs, view) == ReadAll(rs[..n], view)
    decreases |rs| - n
  {
    if n < |rs| {
      assert rs[..n + 1][..n] == rs[..n];
      ReadAllStops(rs, n + 1, view);
    } else {
      assert rs[..n] == rs;
    }
  }

  /** The `results` list of a Python run as saved. */
  function PySaved(rs: seq<PyRunner.PyResult>): (saved: seq<Record>)
    ensures |saved| == |rs| && forall i :: 0 <= i < |rs| ==> saved[i] == FromPy(rs[i])
  {
    seq(|rs|, i requires 0 <= i < |rs| => FromPy(rs[i]))
  }

  /** The `results` list of a Go run as saved. */
  function GoSaved(rs: seq<GoRunner.GoResult>): (saved: seq<Record>)
    ensures |saved| == |rs| && forall i :: 0 <= i < |rs| ==> saved[i] == FromGo(rs[i])
  {
    seq(|rs|, i requires 0 <= i < |rs| => FromGo(rs[i]))
  }

  /**
   * When every record of a class can be read and every record outside it fails with the same
   * error, reading fails exactly when some record is outside the class, and then with that error.
   */
  lemma ReadAllClass<S, T>(rs: seq<S>, view: S -> Result<T, KeyError>, bad: S -> bool, e: KeyError)
    requires forall i :: 0 <= i < |rs| ==> (view(rs[i]).Err? <==> bad(rs[i]))
    requires forall i :: 0 <= i < |rs| ==> view(rs[i]).Err? ==> view(rs[i]).error == e
    ensures ReadAll(rs, view).Err? <==> exists i :: 0 <= i < |rs| && bad(rs[i])
    ensures ReadAll(rs, view).Err? ==> ReadAll(rs, view).error == e
  {
    ReadAllFacts(rs, view);
    if exists i :: 0 <= i < |rs| && bad(rs[i]) {
      var i :| 0 <= i < |rs| && bad(rs[i]);
      assert view(rs[i]).Err?;
    }
  }
}
