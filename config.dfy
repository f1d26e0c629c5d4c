/**
 * The configuration both bandwidth drivers read (the `testConfiguration`, `testFiles`,
 * `networkScenarios` and `testTargets` sections), the shaping commands they issue to the
 * host and the keys under which the environment answers their transfers.
 */
module BenchConfig {
  import opened Outcomes

  datatype TestConfiguration = TestConfiguration(name: string, description: string, iterations: int)

  /** One benchmark payload: its file name, human-readable size and size in bytes. */
  datatype TestFile = TestFile(filename: string, size: string, sizeBytes: int)

  /** A network scenario; a missing `bandwidth` means no limit. */
  datatype Scenario = Scenario(id: string, name: string, description: string, enabled: bool,
                               bandwidth: Option<string>, bandwidthCommand: string)

  /** A storage node taking part in the transfers, with the role it plays. */
  datatype Target = Target(container: string, role: string, apiPort: int)

  datatype Config = Config(test: TestConfiguration, files: seq<TestFile>, scenarios: seq<Scenario>,
                           targets: seq<Target>)

  const UploadRole := "upload"
  const DownloadRole := "download"

  /**
   * A shaping command run on the host. `Stop` runs the stop script on one container,
   * `Limit` runs a scenario's script with a container and a bandwidth, `BulkLimit` runs a
   * scenario's script with only the bandwidth.
   */
  datatype Command =
    | Stop(script: string, container: string)
    | Limit(script: string, container: string, bandwidth: string)
    | BulkLimit(script: string, bandwidth: string)

  /** The commands one shaping call issued, and whether it reported success. */
  datatype Shaping = Shaping(issued: seq<Command>, ok: bool)

  /** The exit status of a command (true: status 0), given its position in the command trace. */
  type ExitOracle = (nat, Command) -> bool

  /** Identifies one transfer: the scenario's position in the configuration, the file's position and the iteration. */
  datatype TransferKey = TransferKey(scenario: nat, file: nat, iteration: nat)

  /** A request sent to a storage node's HTTP interface. */
  datatype Request =
    | Add(host: string, port: int)
    | Cat(host: string, port: int, hash: string)

  /** The number of passes a Python `range(n)` or a Go `for i := 0; i < n; i++` makes. */
  function Passes(n: int): (k: nat)
    ensures n <= 0 ==> k == 0
    ensures n > 0 ==> k == n
  {
    if n < 0 then 0 else n
  }

  /** Some target has the role. */
  predicate HasRole(ts: seq<Target>, role: string)
  {
    exists i :: 0 <= i < |ts| && ts[i].role == role
  }

  /** The first target with the role, as a Python `next(...)` over the targets finds it. */
  function FirstWithRole(ts: seq<Target>, role: string): (r: Option<Target>)
    ensures r.None? <==> !HasRole(ts, role)
    ensures r.Some? ==> exists i :: 0 <= i < |ts| && ts[i] == r.value && r.value.role == role
                                    && forall j :: 0 <= j < i ==> ts[j].role != role
  {
    if ts == [] then None
    else if ts[0].role == role then Some(ts[0])
    else
      var r := FirstWithRole(ts[1..], role);
      assert r.Some? ==> exists i :: 0 <= i < |ts[1..]| && ts[1..][i] == r.value && r.value.role == role
                                     && forall j :: 0 <= j < i ==> ts[1..][j].role != role;
      assert HasRole(ts, role) ==> HasRole(ts[1..], role) by {
        if HasRole(ts, role) {
          var i :| 0 <= i < |ts| && ts[i].role == role;
          assert ts[1..][i - 1].role == role;
        }
      }
      if r.Some? then
        var i :| 0 <= i < |ts[1..]| && ts[1..][i] == r.value && r.value.role == role
                 && forall j :: 0 <= j < i ==> ts[1..][j].role != role;
        assert ts[i + 1] == r.value && forall j :: 0 <= j < i + 1 ==> ts[j].role != role;
        r
      else r
  }

  /** The last target with the role, as a Go loop that overwrites its target variable on every match finds it. */
  function LastWithRole(ts: seq<Target>, role: string): (r: Option<Target>)
    ensures r.None? <==> !HasRole(ts, role)
    ensures r.Some? ==> exists i :: 0 <= i < |ts| && ts[i] == r.value && r.value.role == role
                                    && forall j :: i < j < |ts| ==> ts[j].role != role
  {
    if ts == [] then None
    else
      var prefix := ts[..|ts| - 1];
      if ts[|ts| - 1].role == role then Some(ts[|ts| - 1])
      else
        var r := LastWithRole(prefix, role);
        assert HasRole(ts, role) ==> HasRole(prefix, role) by {
          if HasRole(ts, role) {
            var i :| 0 <= i < |ts| && ts[i].role == role;
            assert prefix[i].role == role;
          }
        }
        if r.Some? then
          var i :| 0 <= i < |prefix| && prefix[i] == r.value && r.value.role == role
                   && forall j :: i < j < |prefix| ==> prefix[j].role != role;
          assert ts[i] == r.value;
          r
        else
          assert !HasRole(prefix, role);
          assert forall i :: 0 <= i < |prefix| ==> ts[i] == prefix[i];
          r
  }
}
