/**
 * The helpers that the two Go benchmark programs, the upload/download benchmark
 * (bench_updown/main.go) and the upload-only benchmark (main.go), carry as identical text:
 * include patterns (`splitPatterns`, `shouldInclude`) and the directory filter built on them,
 * the 1024-based unit selection of `formatBytes`, the guarded `throughputMiB`, the CID scan
 * of an `add` response, and the run-major order in which both programs visit (run, file) pairs.
 */
module BenchCommon {
  import opened Outcomes
  import opened Text
  import opened Grouping

  // ---------------------------------------------------------------- include patterns

  /** One comma-separated part, trimmed; blank parts are dropped. */
  function TrimmedPart(part: string): Option<string>
  {
    var t := TrimSpace(part);
    if t == [] then None else Some(t)
  }

  /** What `splitPatterns` returns; Go's nil slice is the empty sequence. */
  function Patterns(raw: string): seq<string>
  {
    if TrimSpace(raw) == [] then [] else Collect(Split(raw, ','), TrimmedPart)
  }

  /** `splitPatterns`: split on commas, trim each part, keep the non-empty ones in order. */
  method SplitPatterns(raw: string) returns (patterns: seq<string>)
    ensures patterns == Patterns(raw)
  {
    if TrimSpace(raw) == "" {
      return [];
    }
    var parts := Split(raw, ',');
    patterns := [];
    for i := 0 to |parts|
      invariant patterns == Collect(parts[..i], TrimmedPart)
    {
      CollectSnocAt(parts, i, TrimmedPart);
      var trimmed := TrimSpace(parts[i]);
      if trimmed != "" {
        patterns := patterns + [trimmed];
      }
    }
    assert parts[..|parts|] == parts;
  }

  /** Every character of `s` is white space or a comma. */
  predicate SpacesAndCommas(s: string)
  {
    forall i :: 0 <= i < |s| ==> s[i] == ',' || IsSpace(s[i])
  }

  /** Trimming keeps a substring, so it introduces no character. */
  lemma TrimSpaceWithin(s: string, c: char)
    requires c in TrimSpace(s)
    ensures c in s
  {
    var l := TrimLeft(s);
    assert c in l;
  }

  /** Every pattern is non-empty, already trimmed and free of commas. */
  lemma PatternsTrimmed(raw: string)
    ensures forall p :: p in Patterns(raw) ==> p != [] && TrimSpace(p) == p && ',' !in p
  {
    if TrimSpace(raw) != [] {
      var parts := Split(raw, ',');
      CollectPicked(parts, TrimmedPart);
      forall p | p in Patterns(raw)
        ensures p != [] && TrimSpace(p) == p && ',' !in p
      {
        var j :| 0 <= j < |Patterns(raw)| && Patterns(raw)[j] == p;
        var part := parts[Picked(parts, TrimmedPart)[j]];
        TrimSpaceTrimmed(part);
        if ',' in p {
          TrimSpaceWithin(part, ',');
        }
      }
    }
  }

  /** The first comma, at `i`, splits the character condition into its two sides. */
  lemma SpacesAndCommasAround(s: string, i: nat)
    requires i < |s| && s[i] == ',' && ',' !in s[..i]
    ensures SpacesAndCommas(s) <==> AllSpace(s[..i]) && SpacesAndCommas(s[i + 1..])
  {
    var head, rest := s[..i], s[i + 1..];
    if SpacesAndCommas(s) {
      assert forall k :: 0 <= k < |head| ==> head[k] == s[k];
      assert forall k :: 0 <= k < |rest| ==> rest[k] == s[k + i + 1];
    }
    if AllSpace(head) && SpacesAndCommas(rest) {
      forall k | 0 <= k < |s| ensures s[k] == ',' || IsSpace(s[k]) {
        if k < i {
          assert s[k] == head[k] && IsSpace(head[k]);
        } else if k > i {
          assert s[k] == rest[k - i - 1];
        }
      }
      assert SpacesAndCommas(s);
    }
  }

  /** The patterns of a single part: its trimmed text, if not blank. */
  lemma CollectOnePart(part: string)
    ensures Collect([part], TrimmedPart) == [] <==> AllSpace(part)
  {
    TrimSpaceEmpty(part);
    assert [part] == [] + [part];
    CollectSnoc([], part, TrimmedPart);
  }

  lemma {:induction false} CollectPartsEmpty(s: string)
    ensures Collect(Split(s, ','), TrimmedPart) == [] <==> SpacesAndCommas(s)
    decreases |s|
  {
    if ',' !in s {
      CollectOnePart(s);
      assert SpacesAndCommas(s) <==> AllSpace(s);
    } else {
      var i := IndexOf(s, ',');
      CollectPartsEmpty(s[i + 1..]);
      CollectOnePart(s[..i]);
      CollectAppend([s[..i]], Split(s[i + 1..], ','), TrimmedPart);
      SpacesAndCommasAround(s, i);
    }
  }

  /** No pattern survives exactly when the input holds nothing but white space and commas. */
  lemma PatternsEmpty(raw: string)
    ensures Patterns(raw) == [] <==> SpacesAndCommas(raw)
  {
    TrimSpaceEmpty(raw);
    CollectPartsEmpty(raw);
  }

  /** The outcome of `filepath.Match(pattern, name)`: a match, no match, or a malformed pattern. */
  datatype MatchOutcome = Matched | NotMatched | BadPattern

  /** `shouldInclude` as a property: no patterns, or some pattern matches without error. */
  predicate Included(name: string, patterns: seq<string>, glob: (string, string) -> MatchOutcome)
  {
    patterns == [] || exists i :: 0 <= i < |patterns| && glob(patterns[i], name) == Matched
  }

  /** `shouldInclude`: the first matching pattern decides; malformed patterns are skipped. */
  method ShouldInclude(name: string, patterns: seq<string>, glob: (string, string) -> MatchOutcome)
    returns (keep: bool)
    ensures keep == Included(name, patterns, glob)
  {
    if |patterns| == 0 {
      return true;
    }
    for i := 0 to |patterns|
      invariant forall j :: 0 <= j < i ==> glob(patterns[j], name) != Matched
    {
      var outcome := glob(patterns[i], name);
      if outcome == BadPattern {
        continue;
      }
      if outcome == Matched {
        return true;
      }
    }
    return false;
  }

  /** Patterns that are all malformed exclude every name. */
  lemma AllBadExcludes(name: string, patterns: seq<string>, glob: (string, string) -> MatchOutcome)
    requires patterns != [] && forall i :: 0 <= i < |patterns| ==> glob(patterns[i], name) == BadPattern
    ensures !Included(name, patterns, glob)
  {
  }

  // ---------------------------------------------------------------- directory listing

  /** One `os.DirEntry`: its name and whether it is a directory. */
  datatype DirEntry = DirEntry(name: string, isDir: bool)

  /** The file an entry contributes to the benchmark list, if any. */
  function Candidate(patterns: seq<string>, glob: (string, string) -> MatchOutcome): DirEntry -> Option<string>
  {
    (e: DirEntry) => if !e.isDir && Included(e.name, patterns, glob) then Some(e.name) else None
  }

  /** The files of a listing that the benchmark keeps, in listing order. */
  function SelectedFiles(entries: seq<DirEntry>, patterns: seq<string>, glob: (string, string) -> MatchOutcome): seq<string>
  {
    Collect(entries, Candidate(patterns, glob))
  }

  /** The file-selection loop of `main`: skip directories, skip names no pattern includes. */
  method SelectFiles(entries: seq<DirEntry>, patterns: seq<string>, glob: (string, string) -> MatchOutcome)
    returns (files: seq<string>)
    ensures files == SelectedFiles(entries, patterns, glob)
  {
    files := [];
    for i := 0 to |entries|
      invariant files == Collect(entries[..i], Candidate(patterns, glob))
    {
      CollectSnocAt(entries, i, Candidate(patterns, glob));
      var entry := entries[i];
      if entry.isDir {
        continue;
      }
      var keep := ShouldInclude(entry.name, patterns, glob);
      if !keep {
        continue;
      }
      files := files + [entry.name];
    }
    assert entries[..|entries|] == entries;
  }

  /** A name is selected exactly when some entry with that name is a file the patterns include. */
  lemma SelectedFilesMembers(entries: seq<DirEntry>, patterns: seq<string>, glob: (string, string) -> MatchOutcome)
    ensures forall n :: n in SelectedFiles(entries, patterns, glob) <==>
              exists i :: 0 <= i < |entries| && entries[i].name == n && !entries[i].isDir && Included(n, patterns, glob)
  {
    var f := Candidate(patterns, glob);
    CollectPicked(entries, f);
    forall n ensures n in SelectedFiles(entries, patterns, glob) ==>
              exists i :: 0 <= i < |entries| && entries[i].name == n && !entries[i].isDir && Included(n, patterns, glob)
    {
      if n in SelectedFiles(entries, patterns, glob) {
        var j :| 0 <= j < |Collect(entries, f)| && Collect(entries, f)[j] == n;
        var i := Picked(entries, f)[j];
        assert entries[i].name == n;
      }
    }
    forall n, i | 0 <= i < |entries| && entries[i].name == n && !entries[i].isDir && Included(n, patterns, glob)
      ensures n in SelectedFiles(entries, patterns, glob)
    {
      assert i in Picked(entries, f);
      var j :| 0 <= j < |Picked(entries, f)| && Picked(entries, f)[j] == i;
      assert Collect(entries, f)[j] == n;
    }
  }

  // ---------------------------------------------------------------- formatBytes

  /** One past the largest `int64`. */
  const Int64Limit: int := 0x8000_0000_0000_0000

  /** The unit letters `"KMGTPE"` that `formatBytes` indexes by its exponent. */
  const UnitPrefixes: string := "KMGTPE"

  function Pow1024(k: nat): (p: nat)
    ensures p >= 1
  {
    if k == 0 then 1 else 1024 * Pow1024(k - 1)
  }

  lemma {:induction false} Pow1024Grows(i: nat, j: nat)
    requires i <= j
    ensures Pow1024(i) <= Pow1024(j)
    decreases j
  {
    if i < j {
      Pow1024Grows(i, j - 1);
    }
  }

  /** A size as `formatBytes` renders it: plain bytes, or a value scaled by `1024^(exp+1)` with its unit letter. */
  datatype ByteCount = Bytes(count: int) | Scaled(value: real, exp: nat, prefix: char)

  lemma MulNonNegative(x: int, y: int)
    requires x >= 0 && y >= 0
    ensures x * y >= 0
  {
  }

  /** Division with a remainder in range has only one quotient. */
  lemma DivUnique(a: int, d: int, q: int, r: int)
    requires d > 0 && a == d * q + r && 0 <= r < d
    ensures a / d == q
  {
    var q', r' := a / d, a % d;
    assert a == d * q' + r';
    if q' > q {
      MulNonNegative(d, q' - q - 1);
    } else if q' < q {
      MulNonNegative(d, q - q' - 1);
    }
  }

  /** Euclidean division twice is division by the product. */
  lemma DivDiv(a: int, b: int, c: int)
    requires a >= 0 && b > 0 && c > 0
    ensures a / b / c == a / (b * c)
  {
    var q, r := a / b, a % b;
    var q2, r2 := q / c, q % c;
    assert a == b * q + r;
    assert q == c * q2 + r2;
    assert b * q == (b * c) * q2 + b * r2;
    MulNonNegative(b, r2);
    MulNonNegative(b, c - 1 - r2);
    assert b * r2 + b * (c - 1 - r2) == b * c - b;
    DivUnique(a, b * c, q2, b * r2 + r);
  }

  /** A quotient below `c` bounds the dividend. */
  lemma QuotientBelow(a: int, d: int, c: int)
    requires a >= 0 && d > 0 && a / d < c
    ensures a < d * c
  {
    assert a == d * (a / d) + a % d;
    assert d * (a / d) <= d * (c - 1);
  }

  /** A quotient of at least `c` means the dividend is at least `d * c`. */
  lemma QuotientAbove(a: int, d: int, c: int)
    requires a >= 0 && d > 0 && a / d >= c
    ensures d * c <= a
  {
    assert a == d * (a / d) + a % d;
    assert d * c <= d * (a / d);
  }

  /** Any `int64` at least `1024^(e+1)` has `e <= 5`: the six unit letters suffice. */
  lemma ExponentFits(e: nat, size: int)
    requires Pow1024(e + 1) <= size < Int64Limit
    ensures e <= 5
  {
    if e > 5 {
      Pow1024Grows(7, e + 1);
    }
  }

  /**
   * `formatBytes` for an `int64` size: below 1024 the plain byte count; otherwise the exponent
   * `exp` with `1024^(exp+1) <= size < 1024^(exp+2)`, which is at most 5, the size in that unit
   * and the letter `"KMGTPE"[exp]`.
   */
  method FormatBytes(size: int) returns (f: ByteCount)
    requires size < Int64Limit
    ensures size < 1024 ==> f == Bytes(size)
    ensures size >= 1024 ==>
      f.Scaled? && f.exp <= 5 && Pow1024(f.exp + 1) <= size < Pow1024(f.exp + 2)
      && f.value == size as real / Pow1024(f.exp + 1) as real && f.prefix == UnitPrefixes[f.exp]
  {
    if size < 1024 {
      return Bytes(size);
    }
    var div, exp := 1024, 0;
    var n := size / 1024;
    while n >= 1024
      invariant div == Pow1024(exp + 1) && div <= size && n == size / div
      decreases n
    {
      QuotientAbove(size, div, 1024);
      DivDiv(size, div, 1024);
      div := div * 1024;
      exp := exp + 1;
      n := n / 1024;
    }
    QuotientBelow(size, div, 1024);
    ExponentFits(exp, size);
    return Scaled(size as real / div as real, exp, UnitPrefixes[exp]);
  }

  /** At most one exponent brackets a size, so the unit `formatBytes` picks is the only one possible. */
  lemma ExponentUnique(size: int, e: nat, e': nat)
    requires Pow1024(e + 1) <= size < Pow1024(e + 2)
    requires Pow1024(e' + 1) <= size < Pow1024(e' + 2)
    ensures e == e'
  {
    if e < e' {
      Pow1024Grows(e + 2, e' + 1);
    } else if e' < e {
      Pow1024Grows(e' + 2, e + 1);
    }
  }

  // ---------------------------------------------------------------- throughputMiB

  /** Nanoseconds per second: a Go `time.Duration` counts nanoseconds. */
  const NanosPerSecond: real := 1_000_000_000.0

  const MiB: real := 1_048_576.0

  /** `duration.Seconds()`. */
  function Seconds(duration: int): real
  {
    duration as real / NanosPerSecond
  }

  /** `throughputMiB`: MiB per second, and 0 for a non-positive duration. */
  function ThroughputMiB(size: int, duration: int): (r: real)
    ensures duration <= 0 ==> r == 0.0
    ensures duration > 0 ==> r * Seconds(duration) * MiB == size as real
    ensures duration > 0 && size >= 0 ==> r >= 0.0
  {
    if duration <= 0 then 0.0 else size as real / Seconds(duration) / MiB
  }

  // ---------------------------------------------------------------- CID scan

  /** One line of an `add` response: an `addResponse` whose `Hash` field was decoded, or a line that is not valid JSON. */
  datatype ResponseLine = Decoded(hash: string) | Undecodable

  /** Why an upload yields no CID. */
  datatype UploadError =
    | RequestFailed          // building or sending the request failed
    | BadStatus(code: int)   // a status other than 200 OK
    | DecodeFailed           // a response line is not valid JSON
    | StreamFailed           // the scanner reported a read error
    | NoCid                  // no line carried a non-empty `Hash`

  /** The answer to an upload request: no answer at all, or a status code and the response lines. */
  datatype HttpReply = NoReply | Reply(status: int, lines: seq<ResponseLine>)

  /** The `cid` variable after the scanner loop: the last non-empty `Hash`, or empty if there is none. */
  function LastHash(lines: seq<ResponseLine>): string
  {
    if lines == [] then ""
    else
      var last := lines[|lines| - 1];
      if last.Decoded? && last.hash != "" then last.hash else LastHash(lines[..|lines| - 1])
  }

  predicate AllDecoded(lines: seq<ResponseLine>)
  {
    forall i :: 0 <= i < |lines| ==> lines[i].Decoded?
  }

  /** The scanner loop: it stops at the first undecodable line; otherwise every non-empty `Hash` overwrites `cid`. */
  method ScanHashes(lines: seq<ResponseLine>) returns (r: Result<string, UploadError>)
    ensures r == if AllDecoded(lines) then Ok(LastHash(lines)) else Err(DecodeFailed)
  {
    var cid := "";
    for i := 0 to |lines|
      invariant AllDecoded(lines[..i]) && cid == LastHash(lines[..i])
    {
      assert lines[..i + 1][..i] == lines[..i];
      if lines[i].Undecodable? {
        assert !AllDecoded(lines);
        return Err(DecodeFailed);
      }
      if lines[i].hash != "" {
        cid := lines[i].hash;
      }
    }
    assert lines[..|lines|] == lines;
    return Ok(cid);
  }

  /**
   * The last non-empty hash wins: `LastHash` is empty exactly when no hash is, and otherwise it is
   * the hash of some line after which every hash is empty.
   */
  lemma LastHashWins(lines: seq<ResponseLine>)
    requires AllDecoded(lines)
    ensures LastHash(lines) == "" <==> forall i :: 0 <= i < |lines| ==> lines[i].hash == ""
    ensures LastHash(lines) != "" ==>
      exists j :: 0 <= j < |lines| && lines[j].hash == LastHash(lines)
        && forall k :: j < k < |lines| ==> lines[k].hash == ""
  {
    LastHashEmpty(lines);
    if LastHash(lines) != "" {
      var j := LastHashAt(lines);
    }
  }

  /** The lines before the last one are decoded too. */
  lemma InitDecoded(lines: seq<ResponseLine>)
    requires lines != [] && AllDecoded(lines)
    ensures AllDecoded(lines[..|lines| - 1])
  {
    var init := lines[..|lines| - 1];
    forall i | 0 <= i < |init| ensures init[i].Decoded? {
      assert init[i] == lines[i];
    }
  }

  lemma {:induction false} LastHashEmpty(lines: seq<ResponseLine>)
    requires AllDecoded(lines)
    ensures LastHash(lines) == "" <==> forall i :: 0 <= i < |lines| ==> lines[i].hash == ""
  {
    if lines != [] {
      var init := lines[..|lines| - 1];
      InitDecoded(lines);
      LastHashEmpty(init);
      assert forall i :: 0 <= i < |init| ==> init[i] == lines[i];
    }
  }

  /** The position of the hash `LastHash` returns: every later hash is empty. */
  lemma {:induction false} LastHashAt(lines: seq<ResponseLine>) returns (j: nat)
    requires AllDecoded(lines) && LastHash(lines) != ""
    ensures j < |lines| && lines[j].hash == LastHash(lines)
    ensures forall k :: j < k < |lines| ==> lines[k].hash == ""
  {
    var init, last := lines[..|lines| - 1], lines[|lines| - 1];
    if last.hash != "" {
      j := |lines| - 1;
    } else {
      InitDecoded(lines);
      j := LastHashAt(init);
      assert forall k :: 0 <= k < |init| ==> init[k] == lines[k];
    }
  }

  // ---------------------------------------------------------------- run-major order

  /** A run number; `run` counts from 1. */
  type Run = r: int | r >= 1 witness 1

  /** One pass of the inner loop body: the run, and the file's position in the sorted list and its name. */
  datatype Attempt = Attempt(run: Run, index: nat, file: string)

  /** The attempts of run `run` for the first `n` files. */
  function RunAttempts(files: seq<string>, run: Run, n: nat): (r: seq<Attempt>)
    requires n <= |files|
    ensures |r| == n && forall i :: 0 <= i < n ==> r[i] == Attempt(run, i, files[i])
  {
    seq(n, i requires 0 <= i < n => Attempt(run, i, files[i]))
  }

  /** `for run := 1; run <= runs; run++ { for _, file := range files { ... } }`, as the pairs it visits. */
  function Attempts(files: seq<string>, runs: nat): seq<Attempt>
  {
    if runs == 0 then [] else Attempts(files, runs - 1) + RunAttempts(files, runs, |files|)
  }

  /** The visit order is run-major, file-minor: the k-th attempt is file `k % n` of run `k / n + 1`. */
  lemma {:induction false} AttemptsAt(files: seq<string>, runs: nat)
    ensures |Attempts(files, runs)| == |files| * runs
    ensures forall k :: 0 <= k < |Attempts(files, runs)| ==>
              Attempts(files, runs)[k] == Attempt(k / |files| + 1, k % |files|, files[k % |files|])
  {
    if runs > 0 {
      var m := runs - 1;
      AttemptsAt(files, m);
      var n := |files|;
      var before, last := Attempts(files, m), RunAttempts(files, runs, n);
      assert n * runs == n * m + n;
      assert Attempts(files, runs) == before + last;
      forall k | 0 <= k < n * runs
        ensures Attempts(files, runs)[k] == Attempt(k / n + 1, k % n, files[k % n])
      {
        if k >= n * m {
          RunMajor(k, n, m);
          assert Attempts(files, runs)[k] == last[k - n * m];
        } else {
          assert Attempts(files, runs)[k] == before[k];
        }
      }
    }
  }

  /** A position within the block of run `m + 1` is that run's file `k - n * m`. */
  lemma RunMajor(k: nat, n: nat, m: nat)
    requires n * m <= k < n * m + n
    ensures k / n == m && k % n == k - n * m
  {
    DivUnique(k, n, m, k - n * m);
  }

  /** Every attempt names a listed file in a run between 1 and `runs`, and runs never go back. */
  lemma {:induction false} AttemptsRuns(files: seq<string>, runs: nat)
    ensures forall k :: 0 <= k < |Attempts(files, runs)| ==>
              Attempts(files, runs)[k].run <= runs && Attempts(files, runs)[k].file in files
    ensures forall i, j :: 0 <= i < j < |Attempts(files, runs)| ==>
              Attempts(files, runs)[i].run <= Attempts(files, runs)[j].run
  {
    if runs > 0 {
      AttemptsRuns(files, runs - 1);
    }
  }

  /** Advancing the inner loop by one file appends that file's attempt. */
  lemma RunAttemptsSnoc(files: seq<string>, run: Run, k: nat)
    requires k < |files|
    ensures RunAttempts(files, run, k + 1) == RunAttempts(files, run, k) + [Attempt(run, k, files[k])]
  {
  }

  /** Finishing the inner loop finishes the run. */
  lemma AttemptsSnoc(files: seq<string>, run: Run)
    ensures Attempts(files, run) == Attempts(files, run - 1) + RunAttempts(files, run, |files|)
  {
  }
}
