// cmd/kubeadm/app/phases/controlplane/units.go: the unit descriptions of the
// three control-plane components, CreateServiceUnitFiles (write one unit per
// requested component) and RunServices (start the components in order).
module ControlPlane {
  import opened Errors
  import opened Environment
  import opened InitSystem

  // kubeadmconstants.KubeAPIServer, KubeControllerManager and KubeScheduler
  const KubeAPIServer := "kube-apiserver"
  const KubeControllerManager := "kube-controller-manager"
  const KubeScheduler := "kube-scheduler"

  const KubernetesDocumentation := "https://github.com/kubernetes/kubernetes"

  // The command lines that getAPIServerCommand, getControllerManagerCommand
  // and getSchedulerCommand build from the cluster configuration; their code
  // is not part of this model, so they enter as values.
  datatype Commands = Commands(apiServer: seq<string>, controllerManager: seq<string>, scheduler: seq<string>)

  // The shape every control-plane unit shares (units.go:31-66).
  function ComponentSpec(description: string, cmd: seq<string>): UnitSpec {
    UnitSpec(description, KubernetesDocumentation,
      UnitService(cmd, Always, DefaultUnitRestartSec),
      UnitInstall("", MultiUserTarget, ""))
  }

  // getServiceUnitSpecs (units.go:29-70)
  function ServiceUnitSpecs(cmds: Commands): (specs: map<string, UnitSpec>)
    ensures specs.Keys == {KubeAPIServer, KubeControllerManager, KubeScheduler}
    ensures forall name :: name in specs ==>
      && specs[name].documentation == KubernetesDocumentation
      && specs[name].service.restart == Always
      && specs[name].service.restartSec == 5
      && specs[name].install == UnitInstall("", "multi-user.target", "")
    ensures specs[KubeAPIServer].service.execStartCmd == cmds.apiServer
    ensures specs[KubeControllerManager].service.execStartCmd == cmds.controllerManager
    ensures specs[KubeScheduler].service.execStartCmd == cmds.scheduler
  {
    map[
      KubeAPIServer := ComponentSpec("Kubernetes API Server", cmds.apiServer),
      KubeControllerManager := ComponentSpec("Kubernetes Controller Manager", cmds.controllerManager),
      KubeScheduler := ComponentSpec("Kubernetes Scheduler", cmds.scheduler)
    ]
  }

  // ---------------------------------------------------------------------------
  // CreateServiceUnitFiles (units.go:73-90)

  // What the loop of CreateServiceUnitFiles does to the host, name by name:
  // an unknown name or a failed write ends it.
  function CreateUnitsEffect(w: World, unitPath: (string, string) -> string, unitsDir: string,
                             specs: map<string, UnitSpec>, names: seq<string>): (r: (Option<Error>, World))
    ensures r.1.env == w.env
    ensures w.calls <= r.1.calls
    decreases |names|
  {
    if names == [] then (None, w)
    else if names[0] !in specs then (Some(UnknownComponent(names[0])), w)
    else
      var (err, w1) := WriteUnitEffect(w, unitPath, names[0], unitsDir, specs[names[0]]);
      if err.Some? then (Some(ComponentUnitFailed(names[0], err.value)), w1)
      else CreateUnitsEffect(w1, unitPath, unitsDir, specs, names[1..])
  }

  method CreateServiceUnitFiles(host: Host, unitPath: (string, string) -> string, unitsDir: string,
                                cmds: Commands, componentNames: seq<string>)
    returns (err: Option<Error>)
    modifies host
    ensures (err, host.State()) ==
      CreateUnitsEffect(old(host.State()), unitPath, unitsDir, ServiceUnitSpecs(cmds), componentNames)
  {
    var specs := ServiceUnitSpecs(cmds);
    var i := 0;
    while i < |componentNames|
      invariant 0 <= i <= |componentNames|
      invariant CreateUnitsEffect(old(host.State()), unitPath, unitsDir, specs, componentNames) ==
        CreateUnitsEffect(host.State(), unitPath, unitsDir, specs, componentNames[i..])
    {
      var componentName := componentNames[i];
      assert componentNames[i..][1..] == componentNames[i + 1..];
      if componentName !in specs {
        return Some(UnknownComponent(componentName));
      }
      var writeErr := WriteUnitToDisk(host, unitPath, componentName, unitsDir, specs[componentName]);
      if writeErr.Some? {
        return Some(ComponentUnitFailed(componentName, writeErr.value));
      }
      i := i + 1;
    }
    return None;
  }

  // The unit paths of the given names.
  function UnitPaths(unitPath: (string, string) -> string, unitsDir: string, names: seq<string>): set<string> {
    set n | n in names :: unitPath(n, unitsDir)
  }

  // GetSystemUnitFilepath gives different names different paths.
  predicate PathsInjective(unitPath: (string, string) -> string, unitsDir: string, names: seq<string>) {
    forall a, b :: a in names && b in names && unitPath(a, unitsDir) == unitPath(b, unitsDir) ==> a == b
  }

  predicate Distinct(names: seq<string>) {
    forall i, j :: 0 <= i < j < |names| ==> names[i] != names[j]
  }

  // Running the loop over a + b is running it over a and then, if that
  // succeeded, over b.
  lemma {:induction false} CreateUnitsAppend(w: World, unitPath: (string, string) -> string, unitsDir: string,
                                             specs: map<string, UnitSpec>, a: seq<string>, b: seq<string>)
    ensures CreateUnitsEffect(w, unitPath, unitsDir, specs, a + b) ==
      var ra := CreateUnitsEffect(w, unitPath, unitsDir, specs, a);
      if ra.0.Some? then ra else CreateUnitsEffect(ra.1, unitPath, unitsDir, specs, b)
    decreases |a|
  {
    if a == [] {
      assert a + b == b;
    } else {
      assert (a + b)[0] == a[0];
      assert (a + b)[1..] == a[1..] + b;
      if a[0] in specs {
        var (err, w1) := WriteUnitEffect(w, unitPath, a[0], unitsDir, specs[a[0]]);
        if err.None? {
          CreateUnitsAppend(w1, unitPath, unitsDir, specs, a[1..], b);
        }
      }
    }
  }

  // units.go:77-80: an unknown name ends the loop with an error; the units of
  // the names before it stay written and no later name is looked at.
  lemma UnknownNameStops(w: World, unitPath: (string, string) -> string, unitsDir: string,
                         specs: map<string, UnitSpec>, before: seq<string>, name: string, after: seq<string>)
    requires name !in specs
    requires CreateUnitsEffect(w, unitPath, unitsDir, specs, before).0.None?
    ensures CreateUnitsEffect(w, unitPath, unitsDir, specs, before + [name] + after) ==
      (Some(UnknownComponent(name)), CreateUnitsEffect(w, unitPath, unitsDir, specs, before).1)
  {
    assert before + [name] + after == before + ([name] + after);
    CreateUnitsAppend(w, unitPath, unitsDir, specs, before, [name] + after);
  }

  // units.go:82-84: a failed write ends the loop with the wrapped error.
  lemma WriteFailureStops(w: World, unitPath: (string, string) -> string, unitsDir: string,
                          specs: map<string, UnitSpec>, before: seq<string>, name: string, after: seq<string>)
    requires name in specs
    requires CreateUnitsEffect(w, unitPath, unitsDir, specs, before).0.None?
    requires WriteUnitEffect(CreateUnitsEffect(w, unitPath, unitsDir, specs, before).1, unitPath, name, unitsDir, specs[name]).0.Some?
    ensures var mid := CreateUnitsEffect(w, unitPath, unitsDir, specs, before).1;
      var failed := WriteUnitEffect(mid, unitPath, name, unitsDir, specs[name]);
      CreateUnitsEffect(w, unitPath, unitsDir, specs, before + [name] + after) ==
        (Some(ComponentUnitFailed(name, failed.0.value)), failed.1)
  {
    assert before + [name] + after == before + ([name] + after);
    CreateUnitsAppend(w, unitPath, unitsDir, specs, before, [name] + after);
    assert ([name] + after)[1..] == after;
  }

  // The loop succeeds exactly when every name is known, the directory can be
  // made and every unit path can be written.
  lemma {:induction false} CreateUnitsSucceeds(w: World, unitPath: (string, string) -> string, unitsDir: string,
                                               specs: map<string, UnitSpec>, names: seq<string>)
    ensures CreateUnitsEffect(w, unitPath, unitsDir, specs, names).0.None? <==>
      forall n :: n in names ==> n in specs && w.CanMkdir(unitsDir) && w.CanWrite(unitPath(n, unitsDir))
    decreases |names|
  {
    if names != [] && names[0] in specs {
      var (err, w1) := WriteUnitEffect(w, unitPath, names[0], unitsDir, specs[names[0]]);
      CreateUnitsSucceeds(w1, unitPath, unitsDir, specs, names[1..]);
      assert forall n :: n in names <==> n == names[0] || n in names[1..];
    }
  }

  // Only unit paths of the given names are created or changed; everything
  // else keeps its content, whatever the outcome.
  lemma {:induction false} CreateUnitsFrame(w: World, unitPath: (string, string) -> string, unitsDir: string,
                                            specs: map<string, UnitSpec>, names: seq<string>)
    ensures var after := CreateUnitsEffect(w, unitPath, unitsDir, specs, names).1;
      && after.files.Keys <= w.files.Keys + UnitPaths(unitPath, unitsDir, names)
      && forall p :: p in w.files && p !in UnitPaths(unitPath, unitsDir, names) ==> p in after.files && after.files[p] == w.files[p]
    decreases |names|
  {
    if names != [] && names[0] in specs {
      var (err, w1) := WriteUnitEffect(w, unitPath, names[0], unitsDir, specs[names[0]]);
      if err.None? {
        CreateUnitsFrame(w1, unitPath, unitsDir, specs, names[1..]);
        assert UnitPaths(unitPath, unitsDir, names) == {unitPath(names[0], unitsDir)} + UnitPaths(unitPath, unitsDir, names[1..]);
      }
    }
  }

  // After a successful loop every name's unit path holds that name's
  // rendered unit.
  lemma {:induction false} CreateUnitsWritten(w: World, unitPath: (string, string) -> string, unitsDir: string,
                                              specs: map<string, UnitSpec>, names: seq<string>)
    requires PathsInjective(unitPath, unitsDir, names)
    requires CreateUnitsEffect(w, unitPath, unitsDir, specs, names).0.None?
    ensures var after := CreateUnitsEffect(w, unitPath, unitsDir, specs, names).1;
      forall n :: n in names ==>
        n in specs && unitPath(n, unitsDir) in after.files && after.files[unitPath(n, unitsDir)] == RenderUnit(specs[n])
    decreases |names|
  {
    if names != [] {
      var first := names[0];
      var (err, w1) := WriteUnitEffect(w, unitPath, first, unitsDir, specs[first]);
      var after := CreateUnitsEffect(w1, unitPath, unitsDir, specs, names[1..]).1;
      assert PathsInjective(unitPath, unitsDir, names[1..]);
      CreateUnitsWritten(w1, unitPath, unitsDir, specs, names[1..]);
      if first !in names[1..] {
        CreateUnitsFrame(w1, unitPath, unitsDir, specs, names[1..]);
        assert unitPath(first, unitsDir) !in UnitPaths(unitPath, unitsDir, names[1..]);
      }
      assert forall n :: n in names ==> n == first || n in names[1..];
    }
  }

  // Distinct names with distinct paths give as many paths as names.
  lemma {:induction false} UnitPathsCount(unitPath: (string, string) -> string, unitsDir: string, names: seq<string>)
    requires Distinct(names)
    requires PathsInjective(unitPath, unitsDir, names)
    ensures |UnitPaths(unitPath, unitsDir, names)| == |names|
    decreases |names|
  {
    if names != [] {
      var tail := names[1..];
      assert Distinct(tail) by {
        forall i, j | 0 <= i < j < |tail| ensures tail[i] != tail[j] {
          assert tail[i] == names[i + 1] && tail[j] == names[j + 1];
        }
      }
      assert PathsInjective(unitPath, unitsDir, tail);
      UnitPathsCount(unitPath, unitsDir, tail);
      assert UnitPaths(unitPath, unitsDir, names) == {unitPath(names[0], unitsDir)} + UnitPaths(unitPath, unitsDir, tail);
    }
  }

  // units_test.go:107-111: for distinct names with distinct unit paths, a
  // successful run leaves exactly one new or replaced file per name, holding
  // that name's unit.
  lemma OneFilePerName(w: World, unitPath: (string, string) -> string, unitsDir: string,
                        specs: map<string, UnitSpec>, names: seq<string>)
    requires Distinct(names)
    requires PathsInjective(unitPath, unitsDir, names)
    requires CreateUnitsEffect(w, unitPath, unitsDir, specs, names).0.None?
    ensures var after := CreateUnitsEffect(w, unitPath, unitsDir, specs, names).1;
      && after.files.Keys == w.files.Keys + UnitPaths(unitPath, unitsDir, names)
      && |UnitPaths(unitPath, unitsDir, names)| == |names|
      && forall n :: n in names ==>
        n in specs && unitPath(n, unitsDir) in after.files && after.files[unitPath(n, unitsDir)] == RenderUnit(specs[n])
  {
    CreateUnitsFrame(w, unitPath, unitsDir, specs, names);
    CreateUnitsWritten(w, unitPath, unitsDir, specs, names);
    UnitPathsCount(unitPath, unitsDir, names);
  }

  // ---------------------------------------------------------------------------
  // RunServices (units.go:93-107)

  // The start requests for the given names, in order.
  function StartCalls(names: seq<string>): seq<Call> {
    seq(|names|, i requires 0 <= i < |names| => ServiceStart(names[i]))
  }

  lemma StartCallsCons(names: seq<string>, m: nat)
    requires m < |names|
    ensures StartCalls(names[..m + 1]) == [ServiceStart(names[0])] + StartCalls(names[1..][..m])
  {
  }

  // Starts the names in order and stops at the first error.
  function StartAllEffect(w: World, names: seq<string>): (r: (Option<Error>, World))
    // starting services touches no file
    ensures r.1 == w.(calls := r.1.calls)
    // the calls it appends are the starts of a prefix of the names, in order
    ensures |w.calls| <= |r.1.calls| <= |w.calls| + |names|
    ensures r.1.calls == w.calls + StartCalls(names[..|r.1.calls| - |w.calls|])
    decreases |names|
  {
    if names == [] then (None, w)
    else
      var (err, w1) := w.ServiceStart(names[0]);
      if err.Some? then
        assert StartCalls(names[..1]) == [ServiceStart(names[0])];
        (err, w1)
      else
        var r := StartAllEffect(w1, names[1..]);
        StartCallsCons(names, |r.1.calls| - |w1.calls|);
        r
  }

  function RunServicesEffect(w: World, names: seq<string>): (r: (Option<Error>, World))
    // starting services touches no file
    ensures r.1 == w.(calls := r.1.calls)
    // a failed detection is returned and nothing is started
    ensures w.env.initSystem.Some? ==> r == (w.env.initSystem, w.Log(DetectInitSystem))
  {
    var (err, w1) := w.DetectInitSystem();
    if err.Some? then (err, w1) else StartAllEffect(w1, names)
  }

  method RunServices(host: Host, componentNames: seq<string>) returns (err: Option<Error>)
    modifies host
    ensures (err, host.State()) == RunServicesEffect(old(host.State()), componentNames)
  {
    err := host.DetectInitSystem();
    if err.Some? {
      return;
    }
    var i := 0;
    while i < |componentNames|
      invariant 0 <= i <= |componentNames|
      invariant RunServicesEffect(old(host.State()), componentNames) == StartAllEffect(host.State(), componentNames[i..])
    {
      assert componentNames[i..][1..] == componentNames[i + 1..];
      err := host.ServiceStart(componentNames[i]);
      if err.Some? {
        return;
      }
      i := i + 1;
    }
    return None;
  }

  // With no start error every name is started, in order, and nothing else
  // is asked of the init system.
  lemma {:induction false} StartAllSucceeds(w: World, names: seq<string>)
    requires forall n :: n in names ==> n !in w.env.startErrors
    ensures StartAllEffect(w, names).0.None?
    ensures StartAllEffect(w, names).1.calls == w.calls + StartCalls(names)
    decreases |names|
  {
    if names != [] {
      var w1 := w.Log(ServiceStart(names[0]));
      assert w.ServiceStart(names[0]) == (None, w1);
      StartAllSucceeds(w1, names[1..]);
      assert w.calls + StartCalls(names) == w1.calls + StartCalls(names[1..]);
    } else {
      assert w.calls + StartCalls(names) == w.calls;
    }
  }

  lemma StartAllStep(w: World, names: seq<string>)
    requires names != []
    ensures StartAllEffect(w, names) ==
      if names[0] in w.env.startErrors then (Some(w.env.startErrors[names[0]]), w.Log(ServiceStart(names[0])))
      else StartAllEffect(w.Log(ServiceStart(names[0])), names[1..])
  {
  }

  // The first name whose start fails ends the run with its error; the names
  // before it were started, the names after it are not.
  lemma {:induction false} StartAllStopsAtFirstError(w: World, names: seq<string>, k: nat)
    requires k < |names| && names[k] in w.env.startErrors
    requires forall i :: 0 <= i < k ==> names[i] !in w.env.startErrors
    ensures StartAllEffect(w, names).0 == Some(w.env.startErrors[names[k]])
    ensures StartAllEffect(w, names).1.calls == w.calls + StartCalls(names[..k + 1])
    decreases k
  {
    if k > 0 {
      var w1 := w.Log(ServiceStart(names[0]));
      var tail := names[1..];
      assert forall i :: 0 <= i < k - 1 ==> tail[i] == names[i + 1];
      StartAllStep(w, names);
      StartAllStopsAtFirstError(w1, tail, k - 1);
      assert tail[..k] == names[..k + 1][1..];
      assert StartCalls(names[..k + 1]) == [ServiceStart(names[0])] + StartCalls(tail[..k]);
    } else {
      StartAllStep(w, names);
      assert StartCalls(names[..1]) == [ServiceStart(names[0])];
    }
  }

  // RunServices succeeds exactly when the init system is found and no
  // component fails to start; then it started all of them in order.
  lemma RunServicesSucceeds(w: World, names: seq<string>)
    ensures RunServicesEffect(w, names).0.None? <==>
      w.env.initSystem.None? && forall n :: n in names ==> n !in w.env.startErrors
    ensures RunServicesEffect(w, names).0.None? ==>
      RunServicesEffect(w, names).1.calls == w.calls + [DetectInitSystem] + StartCalls(names)
  {
    var w1 := w.Log(DetectInitSystem);
    if w.env.initSystem.None? {
      if forall n :: n in names ==> n !in w.env.startErrors {
        StartAllSucceeds(w1, names);
      } else {
        var k := FirstFailure(names, w.env.startErrors);
        StartAllStopsAtFirstError(w1, names, k);
      }
    }
  }

  // The position of the first name that is a key of errs.
  function FirstFailure(names: seq<string>, errs: map<string, Error>): (k: nat)
    requires exists n :: n in names && n in errs
    ensures k < |names| && names[k] in errs
    ensures forall i :: 0 <= i < k ==> names[i] !in errs
  {
    if names[0] in errs then 0
    else
      assert exists n :: n in names[1..] && n in errs by {
        var n :| n in names && n in errs;
        var j :| 0 <= j < |names| && names[j] == n;
        assert names[1..][j - 1] == n;
      }
      1 + FirstFailure(names[1..], errs)
  }
}
