# kubeadm service-hosted control plane, modelled in Dafny

This project models the part of kubeadm that runs the control plane as host
services (systemd-style units) rather than as static pods:

- **InitSystem** (`unit.go`): the unit description (`UnitSpec`), the unit
  template written out as string assembly, and `WriteUnitToDisk`.
  The rendering keeps the template's whitespace trimming. It also keeps the
  two stray characters `Â®` (U+00C2 U+00AE) after a `RequiredBy` line.
  `ParseUnit` is an inverse of the rendering, and for well-formed units the
  two are proved to round-trip. Because rendering is a Dafny function, equal
  units give identical text by construction.
- **ControlPlane** (`units.go`): the table of the three control-plane units,
  `CreateServiceUnitFiles` (one unit file per requested component, stopping
  at the first unknown name or failed write) and `RunServices` (detect the
  init system, then start the components in order until one fails).
- **Etcd** (`local_unit.go`): the etcd unit, `CreateServiceUnitFile`,
  `RunService`, and `RunStackedEtcdService`, which joins a new member to a
  stacked etcd cluster. It builds a client, announces the member (skipped in
  a dry run), writes the unit from the member list the cluster returned, and
  in a real run starts etcd and waits for the cluster.
- **CheckEtcd** (`checketcd.go`): the check-etcd join phase as a function
  that decides the outcome. The outcome is an error, a skip, the
  endpoint-based health check or the discovery-based health check. When a
  service-hosted node has no bootstrap token the phase dereferences the nil
  `BootstrapToken` (checketcd.go:66) and panics. The model keeps this as the outcome
  `NilBootstrapToken`.
- **ServiceHosting** (`utils.go`): the marker file and its configuration. The
  configuration is loaded once into the `loadedCfg` cache.

**The host.** The file system, the init system and the etcd client are not
part of this model. They are modelled as oracles in `Environment`.
- A `World` value holds what each collaborator answers (`Env`), the files,
  the directories, and a log of every call made.
- The class `Host` holds the same state as mutable fields.

**How each operation is proved.** Every imperative operation is a method on
a `Host` (or, for the cache, on `ServiceHostedState`). The method is proved
equal to a pure "effect" function on `World`. The properties the source
promises are stated as `ensures` of these effect functions, or as lemmas
about them.

**Collaborators passed in as parameters.** These helpers are not part of this
model, so each enters as a parameter: a value where it is called with fixed
arguments, or a function where its argument varies:
- `GetSystemUnitFilepath` (a function of the component name and the units directory);
- the `get*Command` builders (the command values in `Commands`, and for etcd a
  function of the initial cluster);
- `GetClientURL` and `GetPeerURL` (the strings `clientURL` and `peerURL`), and
  `GetClientURLFromJoinEndpoint` (a function of the endpoint);
- `GetServiceHostedConfigFilepath` (the string `configPath`) and
  `filepath.Dir` (a function);
- YAML marshal and unmarshal (functions that may fail).

**Errors.** Errors are values with one constructor per place in the source
that makes or wraps an error. They are not formatted strings.

## Model

| member | source | states |
|---|---|---|
| InitSystem.UnitRestartMode.Name | cmd/kubeadm/app/util/initsystem/unit.go:30-38 | no contract of its own; its five strings are fixed by ParseRestartMode and RestartModeRoundTrip |
| InitSystem.ParseRestartMode | cmd/kubeadm/app/util/initsystem/unit.go:30-38 | a restart string is read back only as the mode whose fixed name it is |
| InitSystem.RestartModeRoundTrip | cmd/kubeadm/app/util/initsystem/unit.go:30-38 | each of the five modes prints its fixed string, which reads back as that mode and holds no line break |
| InitSystem.ExecStartArgs | cmd/kubeadm/app/util/initsystem/unit.go:74 | the ExecStart value is empty exactly for an empty command; otherwise it ends with the space that follows every token |
| InitSystem.ExecStartArgsRoundTrip | cmd/kubeadm/app/util/initsystem/unit.go:74 | splitting the ExecStart value at spaces gives back the command when no token holds a space |
| Text.Decimal | cmd/kubeadm/app/util/initsystem/unit.go:76 | RestartSec is printed as a non-empty string of digits without a leading zero |
| Text.DecimalRoundTrip | cmd/kubeadm/app/util/initsystem/unit.go:76 | reading the printed RestartSec back gives the number |
| InitSystem.RenderStartsWithHeader | cmd/kubeadm/app/util/initsystem/unit.go:68-74 | the text begins with an empty line, `[Unit]`, the Description and Documentation lines, an empty line and `[Service]` followed by `ExecStart=` |
| InitSystem.EmptyInstallEndsWithHeading | cmd/kubeadm/app/util/initsystem/unit.go:77-88 | with no Install field set, the text ends with an empty line and `[Install]`, without a final newline |
| InitSystem.OnlyWantedByInstall | cmd/kubeadm/app/util/initsystem/unit.go:78-84 | with only WantedBy set, the text ends with `[Install]`, a newline and the single line `WantedBy=<value>` |
| InitSystem.RequiredByEndsWithTrailer | cmd/kubeadm/app/util/initsystem/unit.go:85-87 | a non-empty RequiredBy line ends the text and is followed by the two characters `Â®` |
| InitSystem.RenderUnit | cmd/kubeadm/app/util/initsystem/unit.go:67-88 | no contract of its own; its text is fixed by RenderStartsWithHeader, EmptyInstallEndsWithHeading, OnlyWantedByInstall, RequiredByEndsWithTrailer and RenderUnitRoundTrip |
| InitSystem.RenderUnitRoundTrip | cmd/kubeadm/app/util/initsystem/unit.go:67-88 | for a unit whose values hold no line break and whose tokens hold no space, parsing the rendered text gives back the unit |
| InitSystem.RenderUnitInjective | cmd/kubeadm/app/util/initsystem/unit.go:67-88 | two different well-formed units never render to the same text |
| InitSystem.WriteUnitEffect | cmd/kubeadm/app/util/initsystem/unit.go:92-111 | succeeds exactly when the directory can be made and the unit path written. On success, only the unit path changes, it holds the rendered text, and the directory exists. A mkdir failure writes nothing; the directory is made before the write |
| InitSystem.WriteUnitToDisk | cmd/kubeadm/app/util/initsystem/unit.go:92-111 | the host ends as WriteUnitEffect says |
| InitSystem.WrittenUnitReadsBack | cmd/kubeadm/app/util/initsystem/unit.go:97-108 | after a successful write, reading the unit path gives the rendered text, which parses back to the unit |
| ControlPlane.ServiceUnitSpecs | cmd/kubeadm/app/phases/controlplane/units.go:29-70 | exactly the keys kube-apiserver, kube-controller-manager and kube-scheduler. Each unit restarts always after 5 s and is wanted by multi-user.target, with no Alias and no RequiredBy. Each runs its component's command |
| ControlPlane.CreateUnitsEffect | cmd/kubeadm/app/phases/controlplane/units.go:73-90 | the loop never changes the collaborators and only appends to the call log |
| ControlPlane.CreateServiceUnitFiles | cmd/kubeadm/app/phases/controlplane/units.go:73-90 | the loop leaves the host as CreateUnitsEffect says |
| ControlPlane.CreateUnitsAppend | cmd/kubeadm/app/phases/controlplane/units.go:76-87 | running over a + b is running over a, then over b only if a succeeded |
| ControlPlane.UnknownNameStops | cmd/kubeadm/app/phases/controlplane/units.go:77-80 | an unknown name returns an error at once. The files of earlier names stay written, and no later name is processed |
| ControlPlane.WriteFailureStops | cmd/kubeadm/app/phases/controlplane/units.go:82-84 | a failed write returns the wrapped error and no later name is processed |
| ControlPlane.CreateUnitsSucceeds | cmd/kubeadm/app/phases/controlplane/units.go:76-89 | success exactly when every name is known, the directory can be made and every unit path written (so an empty list succeeds) |
| ControlPlane.CreateUnitsFrame | cmd/kubeadm/app/phases/controlplane/units.go:76-89 | whatever the outcome, only unit paths of the given names are created or changed (an empty list changes nothing) |
| ControlPlane.CreateUnitsWritten | cmd/kubeadm/app/phases/controlplane/units.go:82-84 | after success, each name's unit path holds that name's rendered unit, given that unit paths are injective |
| ControlPlane.UnitPathsCount | cmd/kubeadm/app/phases/controlplane/units_test.go:107 | distinct names with injective unit paths have as many paths as names |
| ControlPlane.OneFilePerName | cmd/kubeadm/app/phases/controlplane/units_test.go:107-111 | a successful run over distinct names adds or replaces exactly one file per name, holding that name's unit |
| ControlPlane.StartAllEffect | cmd/kubeadm/app/phases/controlplane/units.go:99-104 | starting services changes no file; the calls it appends to the log are the starts of a prefix of the names, in list order, and never more starts than names |
| ControlPlane.RunServicesEffect | cmd/kubeadm/app/phases/controlplane/units.go:93-98 | no file changes. A failed detection is returned and nothing is started |
| ControlPlane.RunServices | cmd/kubeadm/app/phases/controlplane/units.go:93-107 | the host ends as RunServicesEffect says |
| ControlPlane.StartAllSucceeds | cmd/kubeadm/app/phases/controlplane/units.go:99-106 | with no start error, every component is started once, in list order |
| ControlPlane.StartAllStopsAtFirstError | cmd/kubeadm/app/phases/controlplane/units.go:99-104 | the first failing start ends the run with its error. The components before it were started and those after it were not |
| ControlPlane.RunServicesSucceeds | cmd/kubeadm/app/phases/controlplane/units.go:93-106 | success exactly when detection works and no component fails to start. Then the calls are the detection followed by the starts in order |
| Etcd.ServiceUnitSpec | cmd/kubeadm/app/phases/etcd/local_unit.go:15-28 | the etcd unit: description etcd, documentation https://github.com/coreos, the etcd command for the initial cluster, restart always after 5 s, wanted by multi-user.target |
| Etcd.CreateUnitEffect | cmd/kubeadm/app/phases/etcd/local_unit.go:31-46 | with external etcd, the result is an error and the host is untouched. Otherwise the unit with an empty member list is written, and a failure is wrapped |
| Etcd.CreateServiceUnitFile | cmd/kubeadm/app/phases/etcd/local_unit.go:31-46 | the host ends as CreateUnitEffect says |
| Etcd.CreatedUnitReadsBack | cmd/kubeadm/app/phases/etcd/local_unit.go:37-41 | after success, and when the etcd unit with an empty initial cluster is well-formed (`WellFormed(ServiceUnitSpec(command, []))`: no line break in a value, no space in a command token), the etcd unit file parses back to that unit |
| Etcd.RunServiceEffect | cmd/kubeadm/app/phases/etcd/local_unit.go:102-109 | success exactly when detection works and etcd starts. Detection comes first, and a start is asked only after it. No file changes |
| Etcd.RunService | cmd/kubeadm/app/phases/etcd/local_unit.go:102-109 | the host ends as RunServiceEffect says |
| Etcd.RunServiceIsRunServicesOfEtcd | cmd/kubeadm/app/phases/etcd/local_unit.go:102-109 | RunService behaves exactly as RunServices of the control-plane phase given the single component etcd |
| Etcd.StackedJoinEffect | cmd/kubeadm/app/phases/etcd/local_unit.go:51-99 | No client: nothing else happens. AddMember fails: no write and no start. The unit is built from AddMember's member list, or from none in a dry run. A failed write is wrapped and nothing is started. A failed start skips the wait; otherwise the wait's answer is returned. |
| Etcd.RunStackedEtcdService | cmd/kubeadm/app/phases/etcd/local_unit.go:51-99 | the host ends as StackedJoinEffect says |
| Etcd.DryRunTouchesOnlyTheUnitFile | cmd/kubeadm/app/phases/etcd/local_unit.go:61-86 | when the etcd client can be built, a dry run never calls AddMember, the init system or the wait. It still writes the unit from the empty member list, and succeeds exactly when that write does. (When the client cannot be built, the dry run fails before writing anything, as StackedJoinEffect states.) |
| Etcd.RealRunOrder | cmd/kubeadm/app/phases/etcd/local_unit.go:53-97 | a successful real join calls, in order: client, AddMember, mkdir, unit write, init-system detection, start, and a wait with 8 retries. The unit holds the returned members |
| Etcd.RealRunSucceeds | cmd/kubeadm/app/phases/etcd/local_unit.go:53-97 | a real join succeeds exactly when every collaborator succeeds |
| Etcd.JoinIgnoresExternalEtcd | cmd/kubeadm/app/phases/etcd/local_unit.go:51-99 | with external etcd configured, CreateServiceUnitFile refuses, yet a dry-run join still writes the etcd unit |
| CheckEtcd.RunCheckEtcdPhase | cmd/kubeadm/app/cmd/phases/join/checketcd.go:39-79 | Invalid run data is an error. The check is skipped exactly for a worker node or with external etcd. InitCfg and ClientSet errors come back unchanged. The endpoint check runs exactly for a service-hosted local-etcd control plane, with the URL derived from the join endpoint. Discovery runs exactly when the node is not service-hosted and a client set exists. |
| CheckEtcd.WorkerIgnoresInitCfg | cmd/kubeadm/app/cmd/phases/join/checketcd.go:46-48 | for a worker node the outcome is a skip, whatever InitCfg would answer |
| CheckEtcd.ServiceHostedIgnoresClientSet | cmd/kubeadm/app/cmd/phases/join/checketcd.go:62-68 | a service-hosted node's outcome does not depend on ClientSet |
| CheckEtcd.DiscoveryIgnoresBootstrapToken | cmd/kubeadm/app/cmd/phases/join/checketcd.go:70-78 | without service hosting, the join endpoint is never read |
| ServiceHosting.IsServiceHostedEffect | cmd/kubeadm/app/util/servicehosting/utils.go:21-24 | true exactly when the marker path exists; the only effect is one Stat call |
| ServiceHosting.WriteToFileEffect | cmd/kubeadm/app/util/servicehosting/utils.go:56-74 | a serialise failure does nothing. The directory is made only when it is missing, then the file is written. Success exactly when all steps can succeed, and the file then holds the serialised configuration |
| ServiceHosting.MarkEffect | cmd/kubeadm/app/util/servicehosting/utils.go:27-34 | writes the marker file and wraps any failure. As a function of the host alone, it cannot touch the cache |
| ServiceHosting.LoadEffect | cmd/kubeadm/app/util/servicehosting/utils.go:36-54 | A cached configuration is returned without reading. A read or parse failure leaves the cache empty. A successful parse sets the cache to the parsed configuration. No file changes. |
| ServiceHosting.ServiceHostedState.constructor | cmd/kubeadm/app/util/servicehosting/utils.go:18 | the cache starts empty |
| ServiceHosting.ServiceHostedState.IsServiceHostedControlPlane | cmd/kubeadm/app/util/servicehosting/utils.go:21-24 | the host ends as IsServiceHostedEffect says, and the cache is not in its frame |
| ServiceHosting.ServiceHostedState.MarkControlPlaneAsServiceHosted | cmd/kubeadm/app/util/servicehosting/utils.go:27-34 | the host ends as MarkEffect says, and the cache is not in its frame |
| ServiceHosting.ServiceHostedState.LoadServiceHostedConfig | cmd/kubeadm/app/util/servicehosting/utils.go:36-54 | the answer, the cache and the host end as LoadEffect says |
| ServiceHosting.ServiceHostedState.WriteToFile | cmd/kubeadm/app/util/servicehosting/utils.go:56-74 | the host ends as WriteToFileEffect says |
| ServiceHosting.MarkThenLoad | cmd/kubeadm/app/util/servicehosting/utils.go:27-54 | after a successful mark, the node is service-hosted, and a load with an empty cache returns and caches the marked configuration (given that YAML round-trips) |
| ServiceHosting.LoadedConfigIsSticky | cmd/kubeadm/app/util/servicehosting/utils.go:37-39 | once loaded, the configuration is returned again even after the marker file is rewritten with another one |
| ServiceHosting.FailedLoadRetries | cmd/kubeadm/app/util/servicehosting/utils.go:41-50 | a failed load leaves the cache empty, so the next load reads the file again |

## Left out

- Permission modes are not modelled. These are 0700 for the units directory (unit.go:93), 0600 for unit and marker files, and 0600 for the marker's directory (utils.go:64, kept as an odd choice and not corrected).
- `os.MkdirAll` is modelled as creating the one named directory. Missing parent directories and the file-versus-directory distinction are not modelled.
- `os.Stat` is modelled as answering only "exists" or "does not exist"; its other errors (permission denied, say) are not modelled. In `writeToFile` (utils.go:63) such an error would make the code skip the mkdir and attempt the write.
- ServiceHosting.IsServiceHostedEffect: true exactly when the marker path is a file or directory of the model. `IsServiceHostedControlPlane` (utils.go:22-23) returns false on any `os.Stat` error, so a marker that exists but cannot be stat-ed (permission denied) reads as not service-hosted there; the model has no such error and does not capture that case.
- The template execution error (unit.go:99-102) is left out. The fixed template cannot fail on a `UnitSpec`, so there is no such error path.
- Text is modelled as characters, not bytes. `Â®` is the two characters U+00C2 U+00AE, and the file content is the text itself.
- RestartSec is a Go `uint` but is modelled as an unbounded `nat`. No value near the width limit is used in this code.
- InitSystem.RenderUnitRoundTrip: proved only for well-formed units (no line break in a value, no space in a command token). Otherwise the text is ambiguous and the source promises no inverse.
- The exact expected text of TestWriteUnitToDisk (unit_test.go:62-74) is not proved as one string equality. Its parts are proved by RenderStartsWithHeader, ExecStartArgs, RestartModeRoundTrip, DecimalRoundTrip and OnlyWantedByInstall.
- The command builders `getAPIServerCommand`, `getControllerManagerCommand`, `getSchedulerCommand` and `getEtcdCommand` are parameters. Their code is not part of this model.
- The path and URL helpers are parameters: `GetSystemUnitFilepath`, `GetClientURL`, `GetPeerURL`, `GetClientURLFromJoinEndpoint`, `GetServiceHostedConfigFilepath` and `filepath.Dir`. Injectivity of the unit path is a hypothesis wherever a file count depends on it.
- The etcd client is an oracle that answers success or failure. Its TLS setup, the certificates directory and the polling inside `WaitForClusterAvailable` are left out. The polling interval (`etcdHealthyCheckInterval`) is left out too; only the retry count 8 is kept.
- `GetInitSystem` and `ServiceStart` are oracles. The behaviour of systemd or OpenRC is not modelled.
- The two etcd health checks (`CheckLocalEtcdClusterStatus` and `CheckLocalEtcdClusterStatusByDiscoveringPods`) do network I/O. The model records only which one is run and with which arguments.
- YAML marshal and unmarshal are partial functions given as parameters. Where a property needs it, "unmarshal undoes marshal" is a hypothesis.
- Logging (`klog`) and progress output (`fmt.Print*`, including the dry-run messages) are left out.
- `LoadServiceHostedConfig` returns the address of the cached configuration. The model returns the value, so aliasing through that pointer is not captured.
- `loadedCfg` is an unsynchronised package variable. It is modelled as a field of one object, and concurrent callers are not modelled.
- Writes are atomic in the model. A partially written file after a failure is not modelled.
- The phase registration `NewCheckEtcdPhase` (checketcd.go:31-37) is a struct literal with no behaviour.
- units_test.go:65 compares a string with a slice, so it states nothing about the commands. No property is taken from it.
