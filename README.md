# A verified model of the IPFS bandwidth benchmark

The benchmark measures how fast a private IPFS network moves files. A client uploads a
payload to one storage node and downloads it again from another, while host scripts limit
the bandwidth of the containers. This project models the deterministic core of the benchmark
in Dafny and proves properties of that model. HTTP transfers, shaping scripts, clocks and
random payload bytes become inputs. Each input is a function from a transfer key, or from a
command and its position in the command trace, to the answer the outside world gives.

The model has one module per source file, plus five shared modules.

| module | file | models |
|---|---|---|
| `PyRunner` | `py_runner.dfy` | the Python driver `run-bandwidth-test.py`: the shaping decisions, the result records of `upload_file`, `download_file` and `run_single_test`, `calculate_statistics`, the scenario and run loops of a `Tester` class with the `results` field they extend, `generate_summary` and `save_results` |
| `GoRunner` | `go_runner.dfy` | the Go driver `cmd/bandwidth-test/main.go`: the chunk loop of `generateRandomData` over an array, the bulk and legacy shaping dispatch, `runSingleTest`, `calculateStatistics` sorting its slice in place, the loops of a `BandwidthTester` class, `saveResults` and `displaySummary` |
| `BenchCommon` | `bench_common.dfy` | the helpers both Go upload benchmarks share: `splitPatterns`, `shouldInclude` over an abstract glob matcher, `formatBytes`, `throughputMiB`, the scan of the add response for the last non-empty `Hash`, and the run-major, file-minor order of attempts |
| `BenchUpDown` | `bench_updown.dfy` | `bench_updown/main.go`: round-robin node selection, `readFileWithRandomSuffix`, the benchmark loop that records only complete round trips, `avgDuration` and the grouping in `printSummary` |
| `BenchUpload` | `bench_upload.dfy` | `main.go`: the upload loop that exits on the first failure, the totals, `formatThroughput` |
| `AnalyzeBench` | `analyze_bench.dfy` | `analysis/analyze_bench.py`: `percentile`, `sort_key`, `size_label`, `size_label_simple`, `load_data` and `summarise` |
| `VisualizeResults` | `visualize.dfy` | `visualize_results.py`: the counting and grouping passes of `create_summary_table` and `create_detailed_table` and the rows they emit |
| `AnalyzeResults` | `analyze_results.dfy` | `analyze_results.py`: `format_size`, `format_throughput`, the scenario and file grouping, the per-file listing and statistics, the overall counts and percentages |
| `GenerateGraphs` | `generate_graphs.dfy` | `aggregate_results` of `scripts/generate_graphs.py` |
| `ResultRecords` | `result_records.dfy` | the saved result records as the analysis scripts read them back, with any key possibly absent, and the records each driver writes |
| `BenchConfig` | `config.dfy` | the configuration, shaping commands, oracles and request types the drivers share |
| `Samples` | `samples.dfy` | sums, means, medians, variances, minimum and maximum over `real`, an insertion sort standing for the library sorts, and Go's truncating division |
| `Grouping` | `grouping.dfy` | an insertion-ordered dictionary as a sequence of entries, one-pass grouping, and filtering comprehensions |
| `Text` | `text.dfy` | Go's `strings.TrimSpace`, `strings.Split` for a one-character separator, and `strings.Contains` |
| `Outcomes` | `outcomes.dfy` | `Option` and `Result` |

Some parts of the model follow the source rather than its documentation:

- The Python driver stops a scenario the moment a limit cannot be applied. The Go driver only logs the failure and carries on.
- A size mismatch is only a flag in Python. In Go it is a download error.
- The Python driver's records never carry `random_data_gen_time`. An upload failure's record also lacks `scenario_name`, `bandwidth` and the throughputs. So `analyze_results.py`, `visualize_results.py` and `scripts/generate_graphs.py` raise KeyError on some Python runs. The model reads every key through `Option` and proves exactly which runs fail, and on which key (`AnalyzeResults.PyRunsLackGenTime`, `VisualizeResults.PySummaryTable`, `GenerateGraphs.PyAggregate`).
- `runSingleTest` keeps the last target of each role, because the loop overwrites its target variable on every match. The Python driver takes the first with `next(...)`.
- A file with a negative `size_bytes` makes `generateRandomData` call `make` with a negative length once both roles are found. Go panics there and the process ends: the removal, the append to `results` and every later save are never reached. The model has a `panicked` outcome for this; a run is not assumed to have natural sizes.

Floating-point values are modelled as `real`, without rounding. A standard deviation is carried as its variance, because the square root adds nothing to the properties proved. Go's `int` and `int64` are unbounded `int` except where the width matters, which is the unit selection of `formatBytes` and `formatThroughput`.

## Model

| member | source | states |
|---|---|---|
| PyRunner.ApplyBandwidthLimit | run-bandwidth-test.py:36-59 | no bandwidth: no command and success; otherwise a stop command for the container then the limit command with the scenario's script and bandwidth, and success exactly when the limit command exits 0 |
| PyRunner.StopStatusIgnored | run-bandwidth-test.py:44-49 | the stop command's exit status never changes the outcome of `apply_bandwidth_limit` (it runs with `check=False`) |
| PyRunner.RemoveBandwidthLimit | run-bandwidth-test.py:61-73 | `remove_bandwidth_limit` issues exactly one stop command, for that container |
| PyRunner.Removals | run-bandwidth-test.py:270-272 | the removal loop issues one stop command per target, in target order |
| PyRunner.ApplyToTargets | run-bandwidth-test.py:236-240 | no bandwidth: nothing issued and success; a fully successful pass issues two commands per target; a failed pass has issued at least one command |
| PyRunner.ApplyTrace | run-bandwidth-test.py:236-240 | the shaping trace alternates stop and limit commands; the pass succeeds exactly when every limit command in it exited 0; a failed pass ends on the failing limit command |
| PyRunner.ApplyAlternates | run-bandwidth-test.py:43-53 | every stop command is immediately followed by its limit command |
| PyRunner.ApplyStatuses | run-bandwidth-test.py:53-59 | success exactly when every limit command exited 0, and a failure ends on a failing limit command |
| PyRunner.ApplyStopsAtFailure | run-bandwidth-test.py:237-240 | once a prefix of the targets has failed, later targets add no command and do not change the outcome |
| PyRunner.ApplyAfterFailure | run-bandwidth-test.py:237-240 | a failure before the last target leaves the whole pass equal to the failed prefix |
| PyRunner.Rate | run-bandwidth-test.py:100 | a positive duration gives the rate whose product with the duration is the amount; a zero or negative duration gives 0 (also used for the download rate at line 142) |
| PyRunner.UploadFile | run-bandwidth-test.py:75-114 | the upload succeeds exactly for status 200 with a decodable body whose size parses when it is used; the hash and guarded throughput come from the body; another status is the `HTTP <status>` error; the upload time is always the elapsed time |
| PyRunner.DownloadFile | run-bandwidth-test.py:116-156 | the download succeeds exactly for status 200; its size is the bytes received, `size_match` holds exactly when they equal the expected size, the throughput is guarded; another status is the `HTTP <status>` error |
| PyRunner.FindRoles | run-bandwidth-test.py:161-162 | both lookups succeed exactly when an upload and a download target exist, returning targets of those roles; otherwise the fault names the first missing role |
| PyRunner.Transfer | run-bandwidth-test.py:166-207 | a failed upload gives an unsuccessful eight-key record with `download_time` 0 and sends only the add request; a successful upload sends add then cat with the returned hash, `success` mirrors the download, `total_time` is the sum of both times, `size_match` defaults to false and the error is absent exactly on success |
| PyRunner.UploadFailureIgnoresDownload | run-bandwidth-test.py:169-179 | after a failed upload the download's outcome cannot affect the record or the requests (no download is attempted) |
| PyRunner.RunSingleTest | run-bandwidth-test.py:158-207 | a missing role target is the StopIteration fault that escapes `next(...)`; otherwise the iteration is the transfer with the found roles |
| PyRunner.CalculateStatistics | run-bandwidth-test.py:209-225 | nothing for no samples; otherwise `count` is n, min, max, p95 and p99 are samples, min and max bound every sample, `min <= mean <= max`, `min <= median <= p95 <= p99 <= max`, and a single sample has variance 0 and p95 equal to that sample |
| PyRunner.ScenarioLength | run-bandwidth-test.py:243-257 | with both roles present the first n files contribute `n * iterations` records |
| PyRunner.ScenarioPrefix | run-bandwidth-test.py:243-257 | the records of the first m files are a prefix of the records of the first n files, for m <= n |
| PyRunner.ScenarioOrder | run-bandwidth-test.py:243-257 | records are file-major and iteration-minor: iteration i of file fi sits at `fi * iterations + i` |
| PyRunner.ScenarioTransfersNameScenario | run-bandwidth-test.py:191-195 | every record of a scenario's run carries that scenario's id |
| PyRunner.IterationsRunSticks | run-bandwidth-test.py:247-249 | once a fault escapes the iteration loop, later iterations add nothing |
| PyRunner.IterationsRunStep | run-bandwidth-test.py:247-249 | with both roles present, one more iteration appends that transfer's record and requests |
| PyRunner.IterationsRunTransfers | run-bandwidth-test.py:247-249 | the iteration loop runs every transfer of the file when both roles exist, and otherwise faults on its first call without sending any request |
| PyRunner.FilesRunSticks | run-bandwidth-test.py:243-257 | once a fault escapes the file loop, later files add nothing |
| PyRunner.FilesRunOkStep | run-bandwidth-test.py:243-257 | a fault-free file after a fault-free prefix extends the records and the requests by that file's |
| PyRunner.FilesRunStep | run-bandwidth-test.py:243-257 | with both roles present, one more file appends that file's transfers |
| PyRunner.FilesRunTransfers | run-bandwidth-test.py:243-257 | the file loop runs every transfer of the scenario when both roles exist, and otherwise faults without a request (or yields nothing when there are no files or iterations) |
| PyRunner.ScenarioRunByLoops | run-bandwidth-test.py:227-274 | `run_scenario_tests` is the shaping pass, then the file loop, then the removals, unless shaping failed (nothing more) or a fault escaped (no removals) |
| PyRunner.ShapingFailureAborts | run-bandwidth-test.py:237-240 | a failed shaping pass returns an empty list, sends no request and issues no removal; the commands issued alternate stop and limit and the last one failed |
| PyRunner.ScenarioResults | run-bandwidth-test.py:242-274 | on the normal path the scenario yields `len(files) * iterations` records, iteration i of file fi at `fi * iterations + i`, and its commands end with one removal per target |
| PyRunner.SuccessRate | run-bandwidth-test.py:309 | `len(successful) / len(file_results)` lies in (0, 1] and times the file's result count gives the success count |
| PyRunner.FileSummaryOf | run-bandwidth-test.py:300-315 | a file is summarised exactly when it has a successful result; its rate is successes over the file's results and each of its four statistics counts exactly the successful results |
| PyRunner.ScenarioSummaryOf | run-bandwidth-test.py:290-321 | a scenario is summarised exactly when it is enabled and has results, under its name and bandwidth |
| PyRunner.SummaryContents | run-bandwidth-test.py:276-323 | the summary lists, in configuration order, exactly the enabled scenarios that have results, and within each, in file order, exactly the files with at least one success |
| PyRunner.FileSummariesPicked | run-bandwidth-test.py:299-315 | within one scenario the listed file summaries are exactly those of the files with a success |
| PyRunner.FaultSticks | run-bandwidth-test.py:337-343 | once a fault escapes `run_all_tests`, later scenarios change nothing |
| PyRunner.StepPersists | run-bandwidth-test.py:337-343 | one pass of the scenario loop keeps the saved file equal to the results, adds at most one write and it has no summary, and only appends results of that scenario, and only when it is enabled |
| PyRunner.RunScenariosPersists | run-bandwidth-test.py:336-343 | the scenario loop only grows the results and the writes, every intermediate write has no summary, the file always holds every result so far, and every added result comes from an enabled scenario |
| PyRunner.RunAllSavesSummary | run-bandwidth-test.py:345-352 | a completed run ends with a write holding every result and their summary, whose `total_runtime` is absent (set only on the displayed copy); after a fault the file still holds every result gathered |
| PyRunner.Tester.constructor | run-bandwidth-test.py:18-34 | a new tester holds the configuration and starts with no results, commands, requests or writes |
| PyRunner.Tester.ApplyLimits | run-bandwidth-test.py:236-240 | the shaping loop issues exactly the commands of `ApplyToTargets` and reports its outcome |
| PyRunner.Tester.RunIterations | run-bandwidth-test.py:246-249 | the iteration loop yields the records, or the fault, of the iteration specification and sends its requests |
| PyRunner.Tester.RemoveLimits | run-bandwidth-test.py:270-272 | the removal loop issues one stop command per target, in order |
| PyRunner.Tester.RunFiles | run-bandwidth-test.py:242-257 | the file loop yields the records, or the fault, of the file-loop specification and sends its requests |
| PyRunner.Tester.RunFile | run-bandwidth-test.py:243-257 | one pass of the file loop extends the records and requests to those of one more file |
| PyRunner.Tester.RunScenarioTests | run-bandwidth-test.py:227-274 | the method returns the scenario's outcome and appends exactly its commands and its requests to the traces |
| PyRunner.Tester.SummariseFiles | run-bandwidth-test.py:299-315 | the file loop collects, in file order, the summary of every file that has one |
| PyRunner.Tester.GenerateSummary | run-bandwidth-test.py:276-323 | the summary built by the loops is the summary specification over the current results |
| PyRunner.Tester.SaveResults | run-bandwidth-test.py:362-374 | one more write of the result file, holding every result and the summary exactly when asked |
| PyRunner.Tester.RunScenario | run-bandwidth-test.py:337-343 | one pass of the scenario loop changes the state as the step specification does |
| PyRunner.Tester.RunAllTests | run-bandwidth-test.py:325-360 | the run changes the state as the whole-run specification does; a completed run displays the summary with the measured runtime; a fault displays nothing |
| PyRunner.FileTransfersAt | run-bandwidth-test.py:247-249 | iteration `i` of a file's loop is the transfer of that scenario, file and iteration |
| PyRunner.StatsOf | run-bandwidth-test.py:209-225 | the statistics of a non-empty list count every value and place the mean between minimum and maximum |
| GoRunner.Chunks | cmd/bandwidth-test/main.go:147 | the generation loop runs one round for each offset `d * 1 MiB` below the size, that is, one per started buffer |
| GoRunner.GenerateRandomData | cmd/bandwidth-test/main.go:142-161 | the payload is returned exactly when every round's read succeeds; it then has the requested size, and byte `k` is byte `k mod 1 MiB` of round `k div 1 MiB` (the last round reads only the remainder) |
| GoRunner.ChunkOffsets | cmd/bandwidth-test/main.go:147-157 | every byte that round `d` copies lands at offset `k` with round `k div 1 MiB` and position `k mod 1 MiB` |
| GoRunner.ApplyBandwidthLimit | cmd/bandwidth-test/main.go:164-207 | no bandwidth: nothing and success; a bulk script runs once, for `ipfs-org1` only, with the bandwidth as its one argument; a per-container script issues an unchecked stop command and then the limit command; success exactly when the limit command exits 0 |
| GoRunner.ContainersTrace | cmd/bandwidth-test/main.go:571-576 | the legacy loop over the containers issues the same commands whatever the exit statuses: an error does not stop it |
| GoRunner.ContainersCommands | cmd/bandwidth-test/main.go:564-576 | per-container shaping issues, for every container in order, its stop command and its limit command, or nothing without a bandwidth |
| GoRunner.ContainersWarn | cmd/bandwidth-test/main.go:571-576 | the legacy loop logs a warning exactly when the limit command of some container fails |
| GoRunner.RemoveBandwidthLimit | cmd/bandwidth-test/main.go:210-217 | the removal is one stop command for that container, with no status checked |
| GoRunner.Removals | cmd/bandwidth-test/main.go:619-630 | the removal loop issues one stop command per container, in container order |
| GoRunner.UploadFile | cmd/bandwidth-test/main.go:244-294 | the hash is returned exactly for status 200 with a decodable body; another status is the `HTTP <status>` error; the upload time is kept in every case |
| GoRunner.DownloadFile | cmd/bandwidth-test/main.go:297-329 | no error exactly when the status is 200 and exactly the expected number of bytes arrived; an unexpected count is the size-mismatch error naming both counts; the download time is kept in every case |
| GoRunner.SingleTestRecord | cmd/bandwidth-test/main.go:380-459 | every record carries the 1-based iteration, file, size, scenario id, name and bandwidth; it succeeds exactly when it has no error; a success's total time is upload plus download time and a failure's is 0 |
| GoRunner.SingleTestOutcome | cmd/bandwidth-test/main.go:405-466 | with both roles and a generated payload: the upload time is kept; a failed upload is the error, with no download and zero download time and rates; after a successful upload the hash and guarded upload rate are kept and the download follows; success exactly when both transfers succeed, with a guarded download rate |
| GoRunner.MissingTargetsNoTransfer | cmd/bandwidth-test/main.go:400-403 | a missing upload or download target fails the iteration with the missing-targets error, before any payload or request, with all times 0 |
| GoRunner.SizeMismatchFails | cmd/bandwidth-test/main.go:324-449 | a download of the wrong length fails the iteration with the size-mismatch error and keeps the download time |
| GoRunner.GoStatsBounds | cmd/bandwidth-test/main.go:469-520 | no samples: empty statistics; otherwise `Count` is n, min, max, p95 and p99 are samples, min and max bound every sample, `min <= mean <= max`, `min <= median <= p95 <= p99 <= max`, the variance is non-negative and 0 for one sample |
| GoRunner.SortedStatsOrder | cmd/bandwidth-test/main.go:476-519 | on a sorted slice min is the first and max the last element, and mean, median and the percentiles lie between them in order |
| GoRunner.SortedStatsCentre | cmd/bandwidth-test/main.go:476-487 | on a sorted slice the mean lies between the ends and the (averaged) median is at most the upper middle element |
| GoRunner.SortedStatsPercentiles | cmd/bandwidth-test/main.go:500-517 | on a sorted slice p95 and p99 are elements, ordered, and at least the upper middle element |
| GoRunner.SortedStatsSpread | cmd/bandwidth-test/main.go:489-498 | the variance (sum of squares over n - 1) is non-negative, and 0 for a single sample |
| GoRunner.ClampUnused | cmd/bandwidth-test/main.go:501-508 | the truncated indices `int(n * 0.95)` and `int(n * 0.99)` are always below n, so the clamps never fire |
| GoRunner.CalculateStatistics | cmd/bandwidth-test/main.go:469-520 | the caller's slice is left sorted (a permutation of its old contents) and the statistics are those of the old contents |
| GoRunner.SortInPlace | cmd/bandwidth-test/main.go:474 | the slice is replaced by the sorted permutation of its contents |
| GoRunner.SortedStatistics | cmd/bandwidth-test/main.go:476-519 | the statistics read off a non-empty sorted slice |
| GoRunner.SumOf | cmd/bandwidth-test/main.go:477-480 | the loop's total is the sum of the samples |
| GoRunner.SumSquaresOf | cmd/bandwidth-test/main.go:490-494 | the loop's total is the sum of squared deviations from the mean |
| GoRunner.FindTargets | cmd/bandwidth-test/main.go:391-398 | each found target is the last one with that role: later matches overwrite earlier ones |
| GoRunner.TestAtPanics | cmd/bandwidth-test/main.go:400-408 | an iteration never returns exactly when both roles exist and the file's size is negative, because `make` panics on a negative length; with a missing role a negative size is only the missing-targets failure |
| GoRunner.FilesRunLength | cmd/bandwidth-test/main.go:580-603 | the file loop panics exactly when one of its files panics; without a panic every file contributes one record per iteration, failures included; with one, the loop holds every iteration of the files before the first panicking file |
| GoRunner.FilesRunSticks | cmd/bandwidth-test/main.go:580-587 | after a panic no later file runs |
| GoRunner.FilesRunPrefix | cmd/bandwidth-test/main.go:580-587 | the records of the first m files are a prefix of those of the first n files, for m <= n, and a panic among the first m persists |
| GoRunner.FilesRunLast | cmd/bandwidth-test/main.go:584-587 | when file `fi` does not end the loop in a panic, its iterations follow the records of the earlier files, in iteration order |
| GoRunner.FilesRunCompleteLength | cmd/bandwidth-test/main.go:580-603 | a file loop that has not panicked holds one record per file and iteration |
| GoRunner.FilesRunPlaced | cmd/bandwidth-test/main.go:580-587 | when file `fi` does not end the loop in a panic, its iteration `i` sits at `fi * iterations + i` of the records so far |
| GoRunner.FilesRunOrder | cmd/bandwidth-test/main.go:580-587 | results are file-major and iteration-minor: while no panic has come, iteration `i` of file `fi` sits at `fi * iterations + i`, whatever later files do |
| GoRunner.ScenarioRunPanics | cmd/bandwidth-test/main.go:580-587 | every scenario panics alike: exactly when an iteration runs and some file has both roles and a negative size |
| GoRunner.ScenarioCommands | cmd/bandwidth-test/main.go:552-630 | a bulk script runs once with the bandwidth and is never undone; a per-container scenario stops and limits every container and afterwards, unless the file loop panicked, stops every container again, and still issues the removals without a bandwidth |
| GoRunner.ShapingFailureIgnored | cmd/bandwidth-test/main.go:557-577 | shaping errors are only logged: the scenario's commands and transfers are the same whatever the exit statuses |
| GoRunner.TestAtNamesScenario | cmd/bandwidth-test/main.go:384 | every iteration that returns carries the scenario's id in its record |
| GoRunner.FilesRunNameScenario | cmd/bandwidth-test/main.go:580-587 | every record of a scenario's run carries that scenario's id |
| GoRunner.StepPrefixes | cmd/bandwidth-test/main.go:698-707 | one pass of the scenario loop only appends to `results`, every written file stays a prefix of the results, and a successful intermediate save after a scenario that did not panic writes all results so far |
| GoRunner.StepAdds | cmd/bandwidth-test/main.go:698-702 | the process dies in a pass exactly when it had already or the scenario is enabled and some file panics; an enabled scenario that does not panic adds one record per file and iteration, each naming that scenario; a disabled or panicking one adds nothing |
| GoRunner.PanicSticks | cmd/bandwidth-test/main.go:698-708 | after a panic no later scenario runs and nothing changes |
| GoRunner.RunScenariosPanics | cmd/bandwidth-test/main.go:698-708 | the scenario loop dies exactly when some file panics and some scenario is enabled; it dies in the first enabled scenario, with no result added and no file written |
| GoRunner.RunScenariosWrites | cmd/bandwidth-test/main.go:698-708 | with no scenario enabled the loop changes nothing |
| GoRunner.RunScenariosPrefixes | cmd/bandwidth-test/main.go:698-708 | the scenario loop only appends to `results` and every file it writes holds a prefix of the results |
| GoRunner.RunScenariosLength | cmd/bandwidth-test/main.go:683-708 | the scenario loop appends `files * iterations` records for each enabled scenario when it does not panic, and none when it does |
| GoRunner.RunScenariosFromEnabled | cmd/bandwidth-test/main.go:698-701 | every record the scenario loop appends comes from an enabled scenario |
| GoRunner.RunAllSaves | cmd/bandwidth-test/main.go:710-715 | a successful final save writes every result; a failed final save is the error returned, after the loop's results; a panicked run never reaches the final save and returns nothing |
| GoRunner.RunIgnoresExit | cmd/bandwidth-test/main.go:557-708 | shaping exit statuses never change the run: the same results, traces and files follow |
| GoRunner.Percent | cmd/bandwidth-test/main.go:774 | with at least one success among a non-empty total the rate is above 0 and at most 100 |
| GoRunner.FileReportFacts | cmd/bandwidth-test/main.go:745-782 | a file is reported exactly when some result of that scenario and file succeeded; its rate is then in (0, 100] and both statistics count exactly the successes |
| GoRunner.SuccessfulPresent | cmd/bandwidth-test/main.go:758-769 | the successes of a scenario's file are non-empty exactly when some result of that pair succeeded |
| GoRunner.SummaryContents | cmd/bandwidth-test/main.go:728-785 | the summary holds one report per enabled scenario, in order, each with that scenario's name, bandwidth label and the reports of its files |
| GoRunner.FilterResults | cmd/bandwidth-test/main.go:747-752 | the filtering loop keeps exactly the results of that scenario and file, in order |
| GoRunner.CountSuccesses | cmd/bandwidth-test/main.go:758-767 | the counting loop yields the number of successes and their upload and download times, in order |
| GoRunner.StatisticsOf | cmd/bandwidth-test/main.go:770-771 | the statistics of a fresh slice of times |
| GoRunner.FileReportFor | cmd/bandwidth-test/main.go:746-782 | one pass of the summary's file loop computes that file's report, or none |
| GoRunner.ScenarioReportFor | cmd/bandwidth-test/main.go:746-783 | the summary's file loop collects the reports of the files that are reported, in file order |
| GoRunner.DisplaySummary | cmd/bandwidth-test/main.go:728-785 | the summary loop computes the summary over the tester's results |
| GoRunner.BandwidthTester.ApplyLimits | cmd/bandwidth-test/main.go:552-577 | the shaping appends its commands to the trace and reports whether it succeeded |
| GoRunner.BandwidthTester.RemoveLimits | cmd/bandwidth-test/main.go:613-630 | the removal appends a stop command for every container after a per-container scenario and nothing after a bulk one |
| GoRunner.BandwidthTester.RunSingleTest | cmd/bandwidth-test/main.go:377-466 | one iteration is the test of that scenario, file and iteration, or the panic of `make` on a negative size once both roles are found |
| GoRunner.BandwidthTester.RunIterations | cmd/bandwidth-test/main.go:583-603 | the iteration loop of one file yields every iteration's record and appends their requests in order, or panics on its first iteration with nothing run |
| GoRunner.BandwidthTester.RunFiles | cmd/bandwidth-test/main.go:580-611 | the file loop yields every iteration of every file, file after file, and appends their requests, stopping at the first panic |
| GoRunner.BandwidthTester.RunFile | cmd/bandwidth-test/main.go:580-611 | one pass of the file loop appends file `fi`'s records and requests after the earlier files', and reports whether it panicked |
| GoRunner.BandwidthTester.RunScenarioTests | cmd/bandwidth-test/main.go:523-633 | a scenario's run: its shaping and removal commands and every file's records and requests; a panic leaves before the removal |
| GoRunner.BandwidthTester.SaveResults | cmd/bandwidth-test/main.go:660-676 | the `k`-th save writes the current results when it succeeds and nothing otherwise, and reports which |
| GoRunner.BandwidthTester.RunScenario | cmd/bandwidth-test/main.go:698-707 | one pass of the scenario loop: skipped when disabled, otherwise run, appended and saved; a panic ends it with the commands and requests sent and nothing appended or saved |
| GoRunner.BandwidthTester.RunScenarioLoop | cmd/bandwidth-test/main.go:697-708 | the scenario loop leaves the tester in the state of every scenario run in order, stopping at the first panic |
| GoRunner.BandwidthTester.RunAllTests | cmd/bandwidth-test/main.go:679-725 | every scenario in turn then the final save, whose failure is the error; a panic ends the run at once; only a successful run shows the summary |
| GoRunner.IterationsRunAt | cmd/bandwidth-test/main.go:584-587 | iteration `i` of the loop of a file that does not panic is the single test of that scenario, file and iteration |
| GoRunner.BandwidthTester.constructor | cmd/bandwidth-test/main.go:134-138 | a new tester holds the configuration and starts with no results, commands, requests or writes |
| BenchCommon.SplitPatterns | main.go:248-261 | the `-include` flag's patterns are its comma-separated parts, trimmed, with blank parts dropped, in order (bench_updown/main.go:404-417 is the same code) |
| BenchCommon.PatternsTrimmed | main.go:252-259 | every pattern is non-empty, already trimmed and free of commas |
| BenchCommon.PatternsEmpty | main.go:248-261 | no pattern survives exactly when the flag holds nothing but white space and commas |
| BenchCommon.CollectPartsEmpty | main.go:252-259 | the parts of a split all trim to nothing exactly when the text is white space and commas only |
| BenchCommon.ShouldInclude | main.go:263-277 | no patterns includes every name; otherwise a name is included exactly when some well-formed pattern matches it, malformed patterns being skipped (bench_updown/main.go:419-433 is the same code) |
| BenchCommon.AllBadExcludes | main.go:267-276 | a non-empty list of malformed patterns excludes every name |
| BenchCommon.SelectFiles | main.go:56-65 | the selection loop keeps, in directory order, the names of the entries that are not directories and that the patterns include |
| BenchCommon.SelectedFilesMembers | main.go:56-65 | a name is selected exactly when some entry of that name is a file the patterns include |
| BenchCommon.ExponentFits | main.go:216-228 | any `int64` size of at least `1024^(e+1)` has `e <= 5`, so the six unit letters `KMGTPE` suffice |
| BenchCommon.FormatBytes | main.go:216-228 | below 1024 the plain byte count; otherwise the exponent brackets the size, `1024^(exp+1) <= size < 1024^(exp+2)`, is at most 5, names its unit letter, and the value is the size over `1024^(exp+1)` (bench_updown/main.go:435-447 is the same code) |
| BenchCommon.ExponentUnique | main.go:221-225 | at most one exponent brackets a size, so the unit `formatBytes` picks is the only one possible |
| BenchCommon.ThroughputMiB | main.go:316-322 | a non-positive duration gives 0; otherwise the rate times the duration in seconds times 1 MiB is the size, and a non-negative size gives a non-negative rate (bench_updown/main.go:449-455 is the same code) |
| BenchCommon.ScanHashes | main.go:187-197 | the scanner loop fails with the decode error exactly when some line does not decode; otherwise it yields the last non-empty `Hash` (bench_updown/main.go:240-250 is the same code) |
| BenchCommon.LastHashWins | main.go:194-196 | the last non-empty hash wins: the CID is empty exactly when every line's hash is, and otherwise it is the hash of a line after which every hash is empty |
| BenchCommon.LastHashAt | main.go:189-197 | a non-empty CID comes from a line after which every hash is empty |
| BenchCommon.RunAttempts | main.go:86 | the inner loop visits the first n files in list order, each with the current run |
| BenchCommon.AttemptsAt | main.go:85-86 | the loops make `len(files) * runs` attempts, run-major and file-minor: the k-th is file `k mod len(files)` of run `k div len(files) + 1` |
| BenchCommon.AttemptsRuns | main.go:85-86 | every attempt names a listed file and a run up to `runs`, and runs never go back |
| BenchUpDown.UploadNode | bench_updown/main.go:101 | the upload node `(run - 1) mod nodeCount` is a valid index into the node list |
| BenchUpDown.DownloadNode | bench_updown/main.go:102 | the download node `(uploadNode + 1) mod nodeCount` is a valid index into the node list |
| BenchUpDown.DownloadIsNextUpload | bench_updown/main.go:101-102 | a run downloads from the node the next run uploads to |
| BenchUpDown.UploadNodePeriodic | bench_updown/main.go:101 | the node choice repeats every `nodeCount` runs |
| BenchUpDown.NodesDiffer | bench_updown/main.go:100-102 | with two nodes or more a run never downloads from the node it uploaded to |
| BenchUpDown.ReadWithSuffix | bench_updown/main.go:185-201 | a failed file read or random read is an error; otherwise the payload is the file's bytes followed by the 32 random bytes, and its size is its length |
| BenchUpDown.UploadCid | bench_updown/main.go:203-257 | the CID is returned exactly for a reply with status 200 whose lines all decode and carry a non-empty hash, and it is the last non-empty hash |
| BenchUpDown.UploadData | bench_updown/main.go:235-256 | the status check, scanner loop and empty-CID check compute that result |
| BenchUpDown.IterationFacts | bench_updown/main.go:99-168 | a record is kept exactly when the read, the upload and the download succeed; it carries the run, file, payload size, 1-based nodes, both durations and the CID; the node calls are none after a failed read, the add alone after a failed upload, and otherwise add, cat and unpin |
| BenchUpDown.ResultNodes | bench_updown/main.go:157-167 | a record's nodes are in `1..nodeCount`, the upload node follows the round-robin rule, and with two nodes or more the nodes differ |
| BenchUpDown.RunIteration | bench_updown/main.go:99-168 | the loop body computes that attempt's record and node calls |
| BenchUpDown.RunFiles | bench_updown/main.go:99-169 | the file loop of a run extends the progress of the earlier runs by this run's attempts |
| BenchUpDown.RunBenchmark | bench_updown/main.go:98-170 | the two loops' records and calls are those of every attempt, run-major (a non-positive `runs` makes no attempt) |
| BenchUpDown.BenchmarkResults | bench_updown/main.go:98-170 | at most one record per (run, file) pair, in run order, each for a listed file and a run up to `runs`, with valid nodes that differ for two nodes or more |
| BenchUpDown.AvgDuration | bench_updown/main.go:457-466 | the average is the truncated mean of the durations, and 0 for none |
| BenchUpDown.AverageWithin | bench_updown/main.go:457-466 | for non-negative durations the average lies between any lower and upper bound of the durations |
| BenchUpDown.FoldTimes | bench_updown/main.go:375-379 | folding the records lists their durations in order and keeps the last size seen |
| BenchUpDown.GroupByFile | bench_updown/main.go:368-380 | the grouping loop is the group-by of the records on their file name |
| BenchUpDown.GroupByFileContents | bench_updown/main.go:374-380 | one entry per file name that occurs; its duration lists are that file's records' durations in order and its size is the size of the file's last record |
| BenchUpDown.PrintSummary | bench_updown/main.go:360-401 | the summary rows are those of the grouped records |
| BenchUpDown.SummaryRowFacts | bench_updown/main.go:385-400 | each file's row averages exactly that file's durations, its total is the sum of the two averages and its size is that of the file's last record |
| BenchUpDown.Benchmark | bench_updown/main.go:55-183 | no selected file exits; then a negative node count, a negative run count, or no node with a run to do is a runtime panic; a failed CSV write exits after the runs; otherwise the report holds the files, every record, the node calls and the summary, all empty for zero runs |
| BenchUpload.UploadFileCid | main.go:140-206 | the CID is returned exactly for status 200 with every line decoded, no scanner error and a non-empty last hash; a scanner error after decodable lines is that error |
| BenchUpload.UploadFile | main.go:182-205 | the status check, scanner loop, `scanner.Err()` and empty-CID check compute that result |
| BenchUpload.UploadsSticks | main.go:85-119 | once an attempt has exited the program, later attempts change nothing |
| BenchUpload.ExitFinal | main.go:87-112 | an exit during run k is the program's exit, however many runs were asked for |
| BenchUpload.UploadRun | main.go:86-118 | the file loop of a run extends the earlier runs' records by this run's uploads, or is the first failure |
| BenchUpload.UploadAll | main.go:85-119 | the two loops yield every attempt's record in run-major order, or the first failure |
| BenchUpload.UploadsOkAt | main.go:114-115 | a run that does not exit keeps one record per attempt, each from its own attempt |
| BenchUpload.CompletedRun | main.go:85-119 | a completed benchmark has exactly `len(files) * runs` records, run-major and file-minor, each with its file's stat size, its duration and the CID its reply returned |
| BenchUpload.ExitCause | main.go:87-112 | an exit is the failure of one of the attempts made |
| BenchUpload.Totals | main.go:121-126 | the totals are the sums of the sizes and of the durations |
| BenchUpload.SumIntCovers | main.go:121-126 | with non-negative values every record's value is at most its total |
| BenchUpload.UnitLoop | main.go:239-243 | the unit loop leaves `div = 1024^(exp+1)` at most the rate, with the rate below `div * 1024` unless the capped loop stopped at exponent 5 |
| BenchUpload.FormatThroughputAsWritten | main.go:230-246 | as written: `n/a` for a non-positive duration, a plain rate below 1024 B/s, else an exponent bracketing the rate which indexes past `KMGTPE` exactly when it is 6 or more |
| BenchUpload.ThroughputOutOfRange | main.go:239-245 | `2^62` bytes in one nanosecond (an `int64` size) brackets only an exponent past the six unit letters: the as-written indexing panics |
| BenchUpload.FormatThroughput | main.go:230-246 | corrected: the same cases, but every rate of 1024 B/s or more gets a valid unit letter, and below `1024^7` B/s the exponent brackets the rate |
| BenchUpload.Benchmark | main.go:36-138 | no selected file exits; a non-positive `runs` exits before any upload; an upload failure exits; a failed CSV write exits; otherwise the report holds the files, every record and their totals |
| AnalyzeBench.Ceil | analysis/analyze_bench.py:133 | `math.ceil` is the least integer at or above its argument |
| AnalyzeBench.RankWithin | analysis/analyze_bench.py:131 | for a fraction in [0, 1] the rank `(n - 1) * pct` lies in `[0, n - 1]` |
| AnalyzeBench.Percentile | analysis/analyze_bench.py:127-138 | the result is NaN (None) exactly for an empty list |
| AnalyzeBench.RankIndices | analysis/analyze_bench.py:131-135 | floor and ceiling of the rank are indices of the sorted list, equal exactly at an integral rank and otherwise one apart |
| AnalyzeBench.AtRankBracket | analysis/analyze_bench.py:132-138 | at an integral rank the element there; otherwise the linear interpolation between the two neighbouring elements, which lies between them |
| AnalyzeBench.PercentileAt | analysis/analyze_bench.py:127-138 | a non-empty list's percentile is the interpolation at rank `(n - 1) * pct` over its sorted form, with the rank in range |
| AnalyzeBench.PercentileWithin | analysis/analyze_bench.py:127-138 | every percentile of a non-empty list lies between its minimum and its maximum |
| AnalyzeBench.AtRankIntegral | analysis/analyze_bench.py:134-135 | at an integral rank the element at that index is picked |
| AnalyzeBench.AtRankHalf | analysis/analyze_bench.py:136-138 | half-way between two indices the result is the mean of the two elements |
| AnalyzeBench.PercentileEnds | analysis/analyze_bench.py:127-138 | the 0th percentile is the minimum and the 100th the maximum |
| AnalyzeBench.RankHalf | analysis/analyze_bench.py:131 | the middle rank is a whole index for an odd count and half-way between two indices for an even one |
| AnalyzeBench.AtRankMedian | analysis/analyze_bench.py:131-138 | interpolating at the middle rank gives the median: the middle element, or the mean of the middle two |
| AnalyzeBench.PercentileMedian | analysis/analyze_bench.py:162 | `throughput_p50` is the median of the throughputs |
| AnalyzeBench.AtRankMonotone | analysis/analyze_bench.py:132-138 | on a sorted list a higher rank never picks a lower value |
| AnalyzeBench.PercentileMonotone | analysis/analyze_bench.py:162-164 | a higher fraction never gives a lower percentile, so `p50 <= p95 <= max` |
| AnalyzeBench.SplitOnce | analysis/analyze_bench.py:64 | `s.split(sep, 1)`: without a separator the whole text; otherwise the head, the separator and the rest rebuild the text |
| AnalyzeBench.SplitOnceFirst | analysis/analyze_bench.py:64 | the split happens at the first occurrence of the separator, and none is reported only when the separator does not occur |
| AnalyzeBench.ParseDecimal | analysis/analyze_bench.py:64-66 | `float` of a digit string is its decimal value, and every parsed value is non-negative |
| AnalyzeBench.SplitAfter | analysis/analyze_bench.py:64 | splitting at a one-character separator absent from the head finds it right after the head |
| AnalyzeBench.SizeFromDigits | analysis/analyze_bench.py:64-66 | `test<N><unit>.dat` yields `N` in that unit's MiB, for a digit string `N` |
| AnalyzeBench.UnitSuffix | analysis/analyze_bench.py:63-66 | a name `test<N><unit>.dat` ends in `g.dat` exactly for unit `g` and in `m.dat` exactly for unit `m` |
| AnalyzeBench.NamedSize | analysis/analyze_bench.py:60-67 | outside the table, `test<N>g.dat` has key `N * 1024` and `test<N>m.dat` has key `N`, for a digit string `N` |
| AnalyzeBench.RulesOutsideTable | analysis/analyze_bench.py:60-67 | outside `FILE_SORT_ORDER` the key comes from the suffix rules |
| AnalyzeBench.UnknownNamesLast | analysis/analyze_bench.py:63-67 | a name outside the table ending in neither `g.dat` nor `m.dat` has key infinity and sorts last |
| AnalyzeBench.SizeLabelOf | analysis/analyze_bench.py:70-74 | a file without a summary entry raises KeyError; otherwise the label is GiB exactly when the size is at least 1024 MiB, with the size over 1024 GiB, and otherwise the size in MiB |
| AnalyzeBench.LabelFrom | analysis/analyze_bench.py:79-96 | the branch chain returns the label of the branch whose name equals the file, or falls through when none does |
| AnalyzeBench.SizeLabelSimpleCases | analysis/analyze_bench.py:77-96 | the eight standard names, exactly the keys of `FILE_SORT_ORDER`, get a short label different from the name; every other name is returned unchanged |
| AnalyzeBench.SimpleNames | analysis/analyze_bench.py:17-94 | the names of the short-label branches are exactly the keys of the sort table, and no label equals its name |
| AnalyzeBench.InsertRow | analysis/analyze_bench.py:123 | inserting a row into rows sorted by `(sort_key(file), run)` keeps them sorted and adds exactly that row |
| AnalyzeBench.SortRows | analysis/analyze_bench.py:123 | `rows.sort` yields rows sorted by `(sort_key(file), run)` that are a permutation of the input |
| AnalyzeBench.InsertRowStable | analysis/analyze_bench.py:123 | an inserted row goes after every row it ties with under `(sort_key(file), run)` |
| AnalyzeBench.SortRowsStable | analysis/analyze_bench.py:123 | `list.sort` is stable: the rows that tie under `(sort_key(file), run)` keep their input order |
| AnalyzeBench.FirstBadRow | analysis/analyze_bench.py:123 | the first row whose name has no key (the first `float` that raises), or none when every row has a key |
| AnalyzeBench.KeyedPermutation | analysis/analyze_bench.py:123 | a permutation of rows that all have keys has keys too |
| AnalyzeBench.FirstBadAt | analysis/analyze_bench.py:123 | the first row without a key is the one the sort raises on |
| AnalyzeBench.LoadRows | analysis/analyze_bench.py:99-124 | a missing required column raises with exactly the missing columns; otherwise a row without a key raises with that row's error; otherwise the rows come back sorted and a permutation of the file's rows |
| AnalyzeBench.LoadData | analysis/analyze_bench.py:99-124 | `load_data` with this script's `sort_key`: the same three outcomes |
| AnalyzeBench.StatsFacts | analysis/analyze_bench.py:147-165 | one file's entry: its row count, the first row's size in bytes and MiB, variances that are non-negative and 0 for a single run, `min <= mean <= max` for both measures, `min <= p50 <= p95 <= max`, and p50 the median |
| AnalyzeBench.FoldAppendRows | analysis/analyze_bench.py:143-144 | appending each row in turn rebuilds the rows |
| AnalyzeBench.GroupedFind | analysis/analyze_bench.py:142-144 | each file's group is exactly that file's rows in input order, and files without rows have no group |
| AnalyzeBench.GroupedNonEmpty | analysis/analyze_bench.py:142-144 | every group holds at least one row, so `items[0]` is safe |
| AnalyzeBench.SummaryEntries | analysis/analyze_bench.py:146-166 | one statistics entry per group, keys and order kept |
| AnalyzeBench.GroupRows | analysis/analyze_bench.py:142-144 | the grouping loop builds one list of rows per file in first-seen order |
| AnalyzeBench.SummariseGroups | analysis/analyze_bench.py:147-165 | the statistics loop stores each group's statistics under its key, in order |
| AnalyzeBench.MapGroups | analysis/analyze_bench.py:147-151 | a loop over the groups stores `f(items)` under each key, in order |
| AnalyzeBench.Summarise | analysis/analyze_bench.py:141-166 | `summarise` groups the rows by file, every group non-empty, then stores each group's statistics |
| AnalyzeBench.SummaryKeys | analysis/analyze_bench.py:141-166 | the summary has one entry per distinct file, keys distinct and in first-seen order, and a file has an entry exactly when some row names it |
| AnalyzeBench.SummaryFind | analysis/analyze_bench.py:141-166 | a file's entry holds the statistics of exactly that file's rows in input order, and a file without rows has none |
| AnalyzeBench.FindMapped | analysis/analyze_bench.py:147-151 | a key has a statistics entry exactly when it has a group, and the entry is that group's statistics |
| VisualizeResults.BandwidthOr | visualize_results.py:34 | `result.get('bandwidth', default)` is the default only when the key is absent; a JSON null stays None |
| VisualizeResults.SummaryView | visualize_results.py:33-55 | a result can be counted exactly when it has `scenario`, `scenario_name`, `file` and `success`, and for a success the four measurements; it is then keyed by scenario, name and bandwidth (default 'unlimited'), carries its file, and has a sample exactly when it succeeded; otherwise the KeyError names one of those keys |
| VisualizeResults.TallyFold | visualize_results.py:49-55 | counting a group one result at a time yields its reference counter |
| VisualizeResults.CounterOfFacts | visualize_results.py:40-55 | a group's counter counts all the group's results and exactly its successes, and lists their measurements in input order |
| VisualizeResults.TallyKeeps | visualize_results.py:49-55 | one more result adds 1 to `total_count`, and 1 to `success_count` exactly for a success, keeping the lists as long as the success count |
| VisualizeResults.FileStepFold | visualize_results.py:38-48 | the per-file dictionary of one scenario key is the grouping of its results by file |
| VisualizeResults.SummaryGroupFind | visualize_results.py:32-55 | a scenario key has an entry exactly when some result has it, and its file `f` holds the counter of exactly the results with that key and file |
| VisualizeResults.SummaryGroupsTallied | visualize_results.py:32-55 | every counter of the nested dictionary has lists as long as its success count |
| VisualizeResults.BandwidthLabel | visualize_results.py:63 | 'unlimited' is shown as 'No Limit' and any other bandwidth, None included, as is |
| VisualizeResults.FileRowsMembers | visualize_results.py:59-71 | a scenario's rows are exactly the rows of its files with at least one success |
| VisualizeResults.SummaryRowsMembers | visualize_results.py:58-71 | the table's rows are exactly the rows of the (scenario, file) groups with at least one success |
| VisualizeResults.SummaryTableRows | visualize_results.py:25-74 | a (scenario key, file) pair with a success gets the row computed from exactly its results |
| VisualizeResults.SummaryRowsFrom | visualize_results.py:58-71 | every row comes from a (scenario key, file) pair with a success and is computed from exactly its results |
| VisualizeResults.CountSummary | visualize_results.py:32-55 | the counting pass is the KeyError of the first unreadable result, or the nested grouping of the readings |
| VisualizeResults.EmitFileRows | visualize_results.py:59-71 | the row loop over one scenario's files emits its files' rows |
| VisualizeResults.EmitSummaryRows | visualize_results.py:58-71 | the row loop over the scenarios emits every scenario's file rows, in order |
| VisualizeResults.CreateSummaryTable | visualize_results.py:25-74 | `create_summary_table` raises exactly when some result is unreadable, with the first one's KeyError; otherwise it returns the rows of the groups with a success |
| VisualizeResults.DetailView | visualize_results.py:198-218 | a result can be counted exactly when it has `scenario_name`, `file` and `success`, and for a success the five measurements; it is keyed by name, bandwidth (default 'No Limit') and file, has a sample exactly when it succeeded, and converts times to ms and rates to Mbps |
| VisualizeResults.DetailTallyFold | visualize_results.py:211-218 | counting a group one result at a time yields its reference counter, which counts all of the group's results |
| VisualizeResults.DetailGroupFind | visualize_results.py:197-218 | a key has an entry exactly when some result has it, holding the counter of exactly those results |
| VisualizeResults.DetailGroupsTallied | visualize_results.py:197-218 | every counter of the dictionary has lists as long as its success count |
| VisualizeResults.SuccessPercentRange | visualize_results.py:229 | with at least one success the percentage lies in (0, 100], and it is 100 exactly when every result succeeded |
| VisualizeResults.DetailRowFacts | visualize_results.py:222-240 | a row's success percentage is in (0, 100], 100 exactly when all succeeded; a single sample has zero spread; the upload mean and median lie within the upload times |
| VisualizeResults.DetailTableRows | visualize_results.py:192-243 | the table has a row for a key exactly when some result with that key succeeded, computed from exactly those results |
| VisualizeResults.CountDetails | visualize_results.py:197-218 | the counting pass is the KeyError of the first unreadable result, or the grouping of the readings |
| VisualizeResults.EmitDetailRows | visualize_results.py:221-240 | the row loop emits the rows of the groups with a success, in order |
| VisualizeResults.CreateDetailedTable | visualize_results.py:192-243 | `create_detailed_table` raises exactly when some result is unreadable, with the first one's KeyError; otherwise it returns the rows of the groups with a success |
| VisualizeResults.PyViews | visualize_results.py:33-34 | a Python driver's record is readable by both passes unless it is an upload failure, which lacks `scenario_name` (the detailed pass reads the same keys at visualize_results.py:198-199) |
| VisualizeResults.PySavedClass | visualize_results.py:33-34 | among a Python run's saved records those both passes fail on are exactly the upload failures, each with KeyError('scenario_name') (likewise at visualize_results.py:198-199) |
| VisualizeResults.PySummaryTable | visualize_results.py:25-55 | `create_summary_table` raises KeyError('scenario_name') on a Python run exactly when one of its iterations failed to upload |
| VisualizeResults.PyDetailedTable | visualize_results.py:192-218 | `create_detailed_table` raises KeyError('scenario_name') on a Python run exactly when one of its iterations failed to upload |
| VisualizeResults.GoTables | visualize_results.py:25-218 | both tables read every record of a Go run |
| ResultRecords.GoRecordComplete | cmd/bandwidth-test/main.go:66-83 | a Go record carries every key the readers look up, with the values the driver recorded |
| ResultRecords.PyRecordKeys | run-bandwidth-test.py:166-207 | a Python record always has `success` (the driver's flag), `scenario`, `file`, `fileSize` and both times; an upload failure lacks `scenario_name`, `bandwidth` and the rates; no record has `random_data_gen_time` |
| ResultRecords.ReadAllFacts | visualize_results.py:33-34 | reading every record succeeds exactly when each can be read, yields the readings in order, and otherwise fails with the error of the first unreadable record |
| ResultRecords.ReadAllSnoc | visualize_results.py:33-34 | reading one more record extends the readings or fails with its error |
| ResultRecords.ReadAllStops | visualize_results.py:33-34 | once a prefix fails, its error is the error of the whole loop |
| ResultRecords.PySaved | run-bandwidth-test.py:362-374 | the saved list holds each Python result's record, in order |
| ResultRecords.GoSaved | cmd/bandwidth-test/main.go:660-676 | the saved list holds each Go result's record, in order |
| ResultRecords.ReadAllClass | visualize_results.py:33-34 | when exactly the records outside a class fail, all with one error, reading fails exactly when some record is outside it, with that error |
| AnalyzeResults.Pow1024 | analyze_results.py:17 | a power of 1024 is at least 1 |
| AnalyzeResults.FormatSize | analyze_results.py:12-18 | the unit is one of B, KB, MB, GB, TB or else PB; the value is the size divided by 1024 once per unit passed; below 1024 unless the unit is PB; and every earlier quotient was at least 1024, so the loop stopped at the first unit that fits |
| AnalyzeResults.DivideOnce | analyze_results.py:17 | dividing by 1024 once more moves to the next power of 1024 |
| AnalyzeResults.FormatSizeAtLeastOne | analyze_results.py:14-18 | past the byte unit, the value written is at least 1 |
| AnalyzeResults.FormatThroughput | analyze_results.py:20-23 | megabits per second times one million equals the bytes per second times 8 |
| AnalyzeResults.FormatThroughputLinear | analyze_results.py:22 | the conversion maps zero to zero, keeps order and distributes over sums |
| AnalyzeResults.GroupView | analyze_results.py:45-46 | reading the keys succeeds exactly when `scenario`, `scenario_name`, `bandwidth`, `file` and `fileSize` are all present, and then carries the record with its scenario key and file key |
| AnalyzeResults.Records | analyze_results.py:53 | the records of keyed results, position by position |
| AnalyzeResults.FoldAppendRecords | analyze_results.py:53 | appending each result in turn yields exactly the records in input order |
| AnalyzeResults.FileStepFold | analyze_results.py:50-53 | the inner dictionary built step by step equals the grouping of those results by file key |
| AnalyzeResults.ScenarioGroupFind | analyze_results.py:42-53 | a scenario key has a group exactly when some result carries it; its file dictionary groups exactly that scenario's results by file, and the list under a file key is exactly the results with both keys, in input order |
| AnalyzeResults.GroupScenarios | analyze_results.py:42-53 | the loop fails with the first missing grouping key, and otherwise returns the nested grouping of all results |
| AnalyzeResults.GroupedRecordFrom | analyze_results.py:53 | every entry of a group is one of the grouped results |
| AnalyzeResults.GroupedRecordAt | analyze_results.py:48-53 | every grouped result appears in the group of its keys |
| AnalyzeResults.IterationView | analyze_results.py:68-78 | listing an iteration succeeds exactly when `success` is present and, for a success, `ipfs_hash`, `random_data_gen_time` and the five times and rates are present; a measurement is produced exactly for a success |
| AnalyzeResults.TimeSummaryFacts | analyze_results.py:93-109 | for a non-empty list the mean and the median lie between minimum and maximum, and the spread is shown exactly when there are two or more values, and is then non-negative |
| AnalyzeResults.RateSummaryFacts | analyze_results.py:111-122 | the throughput summaries obey the same order between minimum, mean, median and maximum |
| Samples.Column | analyze_results.py:83-88 | a comprehension's column holds one value per sample, in sample order; `visualize_results.py` appends its columns sample by sample in the same order |
| AnalyzeResults.FileReportCounts | analyze_results.py:62-131 | a file's report exists exactly when every iteration can be listed; it then counts all iterations and the successful ones, and has statistics exactly when at least one succeeded, computed over the successful ones |
| AnalyzeResults.FileReportError | analyze_results.py:68-78 | a failed report carries the error of one of the file's iterations |
| AnalyzeResults.SuccessfulOnly | analyze_results.py:81 | every measurement in the statistics comes from an iteration whose `success` is true |
| AnalyzeResults.SuccessfulAll | analyze_results.py:81 | every successful iteration contributes its measurement to the statistics |
| AnalyzeResults.ScenarioEntryFacts | analyze_results.py:62-131 | a scenario's reports exist exactly when every iteration of every one of its files can be listed, and otherwise fail with the error of one such iteration |
| AnalyzeResults.ScenarioReportsFacts | analyze_results.py:56-131 | the reports exist exactly when every grouped iteration can be listed, and otherwise fail with the error of one grouped iteration |
| AnalyzeResults.OverallOf | analyze_results.py:138-140 | the total is the number of results, the successes are at most the total and the failures are the rest |
| AnalyzeResults.OverallCounts | analyze_results.py:139 | the count can be taken exactly when every result has `success`; it counts exactly the successful results, and is zero exactly when every result failed |
| AnalyzeResults.EmptyRunRaises | analyze_results.py:143-144 | with no results, grouping, listing and counting all go through, and the percentage line divides by zero |
| AnalyzeResults.Percentages | analyze_results.py:143-144 | the intended percentages are absent exactly for an empty run |
| AnalyzeResults.PercentagesFacts | analyze_results.py:143-144 | for a non-empty run the percentages as written and as intended agree, each lies in [0, 100] and they add up to 100 |
| AnalyzeResults.ShareOfTotal | analyze_results.py:143 | a part of a positive total is between 0 and 100 percent of it |
| AnalyzeResults.SharesAddUp | analyze_results.py:143-144 | the shares of two parts that make up a total add up to 100 percent |
| AnalyzeResults.TimeView | analyze_results.py:147-149 | a readable record contributes a value to a column exactly when it succeeded |
| AnalyzeResults.SuccessfulColumnHas | analyze_results.py:147-149 | a readable column is non-empty as soon as one result succeeded |
| AnalyzeResults.AggregatedPresent | analyze_results.py:146-154 | with `success` on every result, the aggregated means are computed exactly when some result succeeded |
| AnalyzeResults.Analyze | analyze_results.py:25-154 | the analysis fails with the grouping loop's error, or else with the listing's error; it succeeds exactly when grouping, listing, counting and aggregation all go through, and then holds the reports, the counts, the intended percentages and the aggregated means |
| AnalyzeResults.PyUploadFailureStopsGrouping | analyze_results.py:45 | a Python run fails in the grouping loop exactly when one of its uploads failed, and then on `scenario_name` |
| AnalyzeResults.PyIterationFails | analyze_results.py:71-73 | a transferred Python record can be listed exactly when it did not succeed; otherwise the listing fails on `random_data_gen_time` |
| AnalyzeResults.PyReportsFailOnGenTime | analyze_results.py:71-73 | for a Python run whose uploads all went through, a failing listing fails on `random_data_gen_time`, and some transfer succeeded |
| AnalyzeResults.PyReportsFailWhenSucceeded | analyze_results.py:71-73 | for such a run, one successful transfer makes the listing fail |
| AnalyzeResults.PyRunsLackGenTime | analyze_results.py:71-73 | such a run is grouped, and its listing fails exactly when some transfer succeeded, always on `random_data_gen_time` |
| AnalyzeResults.GoRunsAnalyse | analyze_results.py:42-140 | a Go run is grouped, every iteration can be listed and the counts can be taken |
| AnalyzeResults.GoRunsAggregate | analyze_results.py:146-154 | for a Go run the aggregated means can be read and are computed exactly when some iteration succeeded |
| AnalyzeResults.GoColumnRead | analyze_results.py:147-149 | every column of a Go run can be read |
| GenerateGraphs.MeasureError | scripts/generate_graphs.py:37-40 | the four appends can all read their key exactly when `upload_time`, `download_time`, `upload_throughput` and `download_throughput` are present |
| GenerateGraphs.AppendAt | scripts/generate_graphs.py:37-40 | appending one result's samples keeps the set of file names |
| GenerateGraphs.FindAppendAt | scripts/generate_graphs.py:37-40 | appending under one file name extends that file's entry with the result's samples and leaves every other file's entry unchanged |
| GenerateGraphs.FindAppended | scripts/generate_graphs.py:28-35 | a newly created entry is found under its own name and leaves the others as they were |
| GenerateGraphs.AggregateSnoc | scripts/generate_graphs.py:26-40 | the first loop processes one more result by one more step |
| GenerateGraphs.AggregateStops | scripts/generate_graphs.py:26-40 | once a result raises KeyError the loop's error is final |
| GenerateGraphs.CollectByFile | scripts/generate_graphs.py:24-40 | the first loop computes the aggregation of all results, or its KeyError |
| GenerateGraphs.StepFind | scripts/generate_graphs.py:26-40 | one step keeps, for every file name, the entry made from the results with that name |
| GenerateGraphs.AggregateFindAll | scripts/generate_graphs.py:26-40 | after the loop the entry of each file name is absent exactly when no result has that name, and otherwise is built from that name's results alone |
| GenerateGraphs.FirstSizePresent | scripts/generate_graphs.py:30 | the first result of each file name carries `fileSize` |
| GenerateGraphs.AggregateFind | scripts/generate_graphs.py:26-40 | a file name has an entry exactly when some result has that name; its size is that of the file's first result and its four lists are the results' values in input order, with no success filter |
| GenerateGraphs.AggregateDistinct | scripts/generate_graphs.py:28-29 | the aggregation holds exactly one entry per file name |
| GenerateGraphs.AppendNewDistinct | scripts/generate_graphs.py:28-29 | adding a name not yet present keeps the names distinct |
| GenerateGraphs.AppendAtDistinct | scripts/generate_graphs.py:37-40 | appending samples keeps the names distinct |
| GenerateGraphs.AggregateReadable | scripts/generate_graphs.py:27-40 | a successful loop read `file` and the four measured keys of every result |
| GenerateGraphs.CollectEvery | scripts/generate_graphs.py:37-40 | when every element yields a value, collecting keeps all of them in order |
| GenerateGraphs.EntryLengths | scripts/generate_graphs.py:37-40 | the four lists of an entry have equal length, the number of results with that file name, which is positive |
| GenerateGraphs.Divide | scripts/generate_graphs.py:49 | a finite quotient times the divisor gives back the dividend |
| GenerateGraphs.MbpsAll | scripts/generate_graphs.py:47-48 | each throughput converted to megabits per second, position by position |
| GenerateGraphs.SumMbps | scripts/generate_graphs.py:47-48 | converting each value then summing equals converting the sum |
| GenerateGraphs.MbpsOfMean | scripts/generate_graphs.py:47-48 | the mean throughput times 8 divided by one million is the mean of the converted values, and lies between their minimum and maximum |
| GenerateGraphs.ScaledQuotient | scripts/generate_graphs.py:47-48 | scaling commutes with division by the count |
| GenerateGraphs.AveragesWithin | scripts/generate_graphs.py:45-46 | each average time lies between the least and the greatest sample |
| GenerateGraphs.AveragesMbps | scripts/generate_graphs.py:47-48 | each average rate is the mean of the throughputs in megabits per second |
| GenerateGraphs.AveragesRatio | scripts/generate_graphs.py:49 | the ratio is finite exactly when the average upload time is non-zero, and then times the average upload time gives the average download time |
| GenerateGraphs.ComputeAverages | scripts/generate_graphs.py:43-49 | the second loop keeps every file name in place and writes its averages, rates and ratio |
| GenerateGraphs.AggregatedHasSamples | scripts/generate_graphs.py:28-40 | every entry of a successful first loop has samples, so the averages are defined |
| GenerateGraphs.AggregateResults | scripts/generate_graphs.py:22-51 | the function fails exactly when the first loop raises, with its error; otherwise it returns one summary per file name in first-appearance order, each the averages of that file's samples |
| GenerateGraphs.AggregateMeasures | scripts/generate_graphs.py:37-40 | with file names and sizes present the loop fails exactly when some measured key is absent, and with the first such error |
| GenerateGraphs.PyAggregate | scripts/generate_graphs.py:39 | a Python run fails exactly when one of its uploads failed, and then on `upload_throughput` |
| GenerateGraphs.GoAggregate | scripts/generate_graphs.py:26-40 | a Go run always aggregates |
| BenchConfig.Passes | run-bandwidth-test.py:247 | a counted loop makes no pass for a non-positive count and otherwise exactly that many |
| BenchConfig.FirstWithRole | run-bandwidth-test.py:161-162 | absent exactly when no target has the role; otherwise a target with the role before which none has it |
| BenchConfig.LastWithRole | cmd/bandwidth-test/main.go:391-398 | absent exactly when no target has the role; otherwise a target with the role after which none has it |
| Samples.SumSquares | run-bandwidth-test.py:221 | a sum of squared deviations is non-negative |
| Samples.SampleVariance | run-bandwidth-test.py:221 | the sample variance is non-negative, and zero for fewer than two samples |
| Samples.PopulationVariance | analysis/analyze_bench.py:156 | the population variance is non-negative, and zero for fewer than two samples |
| Samples.SeqMin | run-bandwidth-test.py:219 | the minimum is one of the samples and at most each of them |
| Samples.SeqMax | run-bandwidth-test.py:220 | the maximum is one of the samples and at least each of them |
| Samples.Insert | run-bandwidth-test.py:214 | inserting into a sorted list keeps it sorted and adds exactly that one value |
| Samples.SortReals | run-bandwidth-test.py:214 | the result is sorted, a permutation of the samples, of the same length |
| Samples.SortedEnds | run-bandwidth-test.py:214-220 | a sorted permutation starts at the minimum and ends at the maximum |
| Samples.SortedWithin | run-bandwidth-test.py:214-223 | every element of a sorted permutation lies between minimum and maximum |
| Samples.SumBounds | run-bandwidth-test.py:217 | bounds on every sample scale to bounds on the sum |
| Samples.MeanWithin | run-bandwidth-test.py:217 | the mean lies between the minimum and the maximum |
| Samples.MeanBetween | run-bandwidth-test.py:217 | bounds on every sample hold for the mean |
| Samples.MedianWithin | run-bandwidth-test.py:218 | the median of sorted samples lies between the first element and the middle one, and so below the last |
| Samples.TruncDiv | bench_updown/main.go:465 | Go's `/` on integers: for a non-negative dividend the floor quotient, and for a negative one the quotient rounded up toward zero, `(q - 1) * b < a <= q * b` |
| Samples.P95Index | cmd/bandwidth-test/main.go:501 | the 95th-percentile index is an index of the list, at or past the middle |
| Samples.P99Index | cmd/bandwidth-test/main.go:502 | the 99th-percentile index is an index of the list, at or past the 95th-percentile one |
| Text.TrimLeft | main.go:249 | leading white space is removed and only white space |
| Text.TrimRight | main.go:249 | trailing white space is removed and only white space |
| Text.TrimSpaceTrimmed | main.go:255 | a trimmed string starts and ends with no white space, and trimming again changes nothing |
| Text.TrimSpaceEmpty | main.go:249 | trimming gives the empty string exactly when the string is blank |
| Text.TrimLeftBlank | main.go:249 | a blank string trims to nothing |
| Text.TrimSpaceKeeps | main.go:255-256 | a string with a non-space character does not trim to nothing |
| Text.IndexOf | main.go:252 | the first position of the character |
| Text.Split | main.go:252 | splitting gives at least one part, and no part contains the separator |
| Text.SplitJoin | main.go:252 | joining the parts with the separator gives back the input |
| Text.ContainsAt | cmd/bandwidth-test/main.go:171-172 | substring search holds exactly when the pattern occurs at some offset |
| Grouping.Find | analyze_results.py:48 | a lookup misses exactly when the key is not in the dictionary |
| Grouping.FindMap | analysis/analyze_bench.py:141-166 | a dictionary whose values are computed key by key from another answers each lookup with the computed value of the other's answer, and misses where the other misses |
| Grouping.Filter | analyze_results.py:53 | the kept elements all have the key, and there are no more of them than inputs |
| Grouping.FilterMembers | analyze_results.py:53 | an element is kept exactly when it is an input with the key |
| Grouping.UpsertKeys | analyze_results.py:48-49 | inserting under a key appends that key only when it is new, so the keys stay in first-insertion order |
| Grouping.UpsertFind | analyze_results.py:48-53 | updating a key changes its entry by one step from its old value or the initial one, and no other entry |
| Grouping.UpsertDistinct | analyze_results.py:48-49 | updating keeps the keys distinct |
| Grouping.GroupKeys | analyze_results.py:43-53 | the grouped dictionary has distinct keys, and exactly the keys that occur in the input |
| Grouping.GroupFind | analyze_results.py:43-53 | the entry under a key is absent exactly when no input has that key, and otherwise is what a loop over just the inputs with that key accumulates |
| Grouping.MapGroupFind | analysis/analyze_bench.py:142-144 | the same for an unordered dictionary: a key is present exactly when it occurs, with the accumulation of its inputs |
| Grouping.CollectSnoc | analyze_results.py:81 | the comprehension over one more element adds that element's value when it passes the filter |
| Grouping.CollectAppend | analyze_results.py:81 | the comprehension over a concatenation is the concatenation of the comprehensions |
| Grouping.CollectLength | analyze_results.py:81 | a filtering comprehension keeps at most one value per input |
| Grouping.CollectFrom | analyze_results.py:81 | every kept value comes from an input |
| Grouping.CollectPicked | analyze_results.py:81 | the j-th kept value comes from the j-th input that passes the filter, the inputs passing are exactly those kept, and their positions increase |
| Grouping.CollectMembers | analyze_results.py:81 | a value is kept exactly when some input yields it |
| Grouping.FindIndex | analyze_results.py:48 | a key that is found sits at some position with the value found |
| Grouping.GroupIntoAll | analyze_results.py:43-53 | every group has any property that the initial value has and every step keeps |
| Grouping.FindDistinct | analyze_results.py:48 | with distinct keys, looking up an entry's key finds that entry |

## Left out

- HTTP requests, multipart bodies and response decoding are outside the model. Each transfer is an oracle answer per (scenario, file, iteration) key, and each HTTP request the drivers would send is recorded in a request trace.
- The shaping scripts, `docker` checks, container restarts (`restartContainers`, `RESTART_CONTAINERS`), `deleteFromIPFS` and the garbage-collection calls are external processes. Shaping is an exit-status oracle over the command trace; the rest are not modelled.
- Clocks, sleeps and timestamps are left out. Every duration is an input.
- The random bytes of `generateRandomData` and of the random suffix are an arbitrary fill function. A failing `crypto/rand` read is an oracle.
- The goroutine and `io.Pipe` that stream an upload in `main.go`, and the mutex in `saveResults`, are concurrency and are not modelled. A failed stream is an input to `BenchUpload.UploadFile`.
- JSON and CSV reading and writing are left out. A save is a write event that holds the results list (and the summary, when asked). The analysis scripts start from the `results` list of the loaded file, with any key possibly absent. `load_data` starts from the CSV's field names and rows.
- Printed output and format strings are not modelled, except for the unit and value a formatter selects. This covers the scenario comparison at the end of `analyze_results.py` (lines 156-178), `displayFileStatistics`, the progress lines, and `bandwidth or 'Unlimited'`.
- `filepath.Match` is an abstract matcher that may answer match, no match or error.
- `writeCSV` and `write_summary_csv`, the plots of `analysis/analyze_bench.py`, the graphs of `scripts/generate_graphs.py` beyond `aggregate_results`, `visualize_results.py` past its two tables, and all of `analysis/analyze_upload_download.py` and `analysis/compare_results.py` are plotting or file output. They are not modelled.
- `NewBandwidthTester`'s configuration loading and `checkDocker`/`checkContainers`/`main` of the Go driver are not modelled. `GoRunner.BandwidthTester.constructor` starts from a loaded configuration.
- `os.ReadDir` returns entries sorted by name, so the `sort.Strings` of the two Go benchmarks leaves the selected list as it is and is not modelled separately.
- The per-iteration loop variable of Go 1.22 is assumed, so `&target` in `runSingleTest` points at the matching target.
- Library sorts (`sorted`, `list.sort`, `sort.Float64s`) are modelled by an insertion sort proved sorted and a permutation. The one sort whose ties can be told apart, the row sort of `analysis/analyze_bench.py`, is also proved stable (`AnalyzeBench.SortRowsStable`).
- `printSummary` ranges over a Go map, whose order is random. `BenchUpDown.PrintSummary` returns the rows as a map for that reason.
- Samples.SampleVariance: the standard deviation itself (`math.Sqrt`, `statistics.stdev`, `pstdev`) is not computed, because square roots of reals add nothing to the properties proved. The model carries the variance, which is zero for fewer than two samples.
- AnalyzeBench.Percentile: requires 0 ≤ pct ≤ 1. Its callers pass only 0.5 and 0.95 (analysis/analyze_bench.py:162-164).
- AnalyzeBench.ParseDecimal: reads digits with at most one decimal point (`1`, `1.5`, `2.`, `.5`). `float()` also accepts a sign, an exponent, surrounding white space, underscores between digits, and `inf` or `nan`. For such text the model reports `NotANumber` where Python returns a number: `test-5m.dat` sorts at -5.0 in Python. The benchmark's files are named with plain sizes, so Python's full float grammar is not modelled.
- AnalyzeBench.NamedSize: the `testNg.dat`/`testNm.dat` rule is stated for every digit string and unit letter, not for individual concrete names. Unfolding literal strings is too costly to prove.
- Numeric edge cases of floating point (NaN from numpy's mean of an empty list, signed zero, infinities other than a division by zero) are not modelled. `GenerateGraphs.Divide` keeps the infinities and NaN that numpy's division by zero gives for the ratio.

## Findings

| source | as written | input that shows it | evidently intended | confidence | as-written member | corrected member |
|---|---|---|---|---|---|---|
| main.go:230-246 | `formatThroughput` indexes `"KMGTPE"[exp]` without bounding `exp`, so a rate of 1024^7 B/s or more panics | 2^62 bytes reported in 1 ns | stop the unit loop at E, as `formatBytes` can for any `int64` | low: not executed, and the rate is far beyond real links | BenchUpload.FormatThroughputAsWritten | BenchUpload.FormatThroughput |
| analyze_results.py:143-144 | the success and failure percentages divide by `total_tests`, so an empty `results` list raises ZeroDivisionError after the grouping and the listing went through | `results == []` | report no percentages for an empty run | medium: not executed | AnalyzeResults.EmptyRunRaises | AnalyzeResults.Percentages |

`BenchUpload.ThroughputOutOfRange` shows that the input in the first row drives the as-written method into its panic. `AnalyzeResults.PercentagesFacts` proves that the corrected percentages agree with the as-written ones whenever the run is not empty.
