// cmd/kubeadm/app/phases/etcd/local_unit.go: the etcd unit, writing it for
// the first control-plane node (CreateServiceUnitFile), joining a further
// member to a stacked etcd cluster (RunStackedEtcdService) and starting the
// etcd service (RunService).
module Etcd {
  import opened Errors
  import opened Environment
  import opened InitSystem
  import ControlPlane

  // kubeadmconstants.Etcd
  const Etcd := "etcd"

  // How often WaitForClusterAvailable asks the cluster before it gives up
  // (etcdHealthyCheckRetries of the etcd phase package).
  const EtcdHealthyCheckRetries: nat := 8

  // What the etcd steps read from the cluster configuration and the node.
  datatype EtcdSetup = EtcdSetup(
    unitsDir: string,
    nodeName: string,
    // cfg.Etcd.External != nil
    externalEtcd: bool,
    // etcdutil.GetClientURL(endpoint) and etcdutil.GetPeerURL(endpoint)
    clientURL: string,
    peerURL: string,
    // getEtcdCommand(cfg, endpoint, nodeName, initialCluster) as a function of the initial cluster
    command: seq<Member> -> seq<string>,
    // kubeadmconstants.GetSystemUnitFilepath
    unitPath: (string, string) -> string)
  {
    function EtcdUnitPath(): string {
      unitPath(Etcd, unitsDir)
    }
  }

  // getServiceUnitSpec (local_unit.go:15-28)
  function ServiceUnitSpec(command: seq<Member> -> seq<string>, initialCluster: seq<Member>): (spec: UnitSpec)
    ensures spec.description == "etcd" && spec.documentation == "https://github.com/coreos"
    ensures spec.service.execStartCmd == command(initialCluster)
    ensures spec.service.restart == Always && spec.service.restartSec == 5
    ensures spec.install == UnitInstall("", "multi-user.target", "")
  {
    UnitSpec("etcd", "https://github.com/coreos",
      UnitService(command(initialCluster), Always, DefaultUnitRestartSec),
      UnitInstall("", MultiUserTarget, ""))
  }

  // ---------------------------------------------------------------------------
  // CreateServiceUnitFile (local_unit.go:31-46)

  function CreateUnitEffect(w: World, s: EtcdSetup): (r: (Option<Error>, World))
    // local_unit.go:32-34: with external etcd nothing is asked of the host
    ensures s.externalEtcd ==> r == (Some(ExternalEtcdUnit), w)
    // otherwise the unit is written from an empty member list, and a failure is wrapped
    ensures !s.externalEtcd ==>
      var write := WriteUnitEffect(w, s.unitPath, Etcd, s.unitsDir, ServiceUnitSpec(s.command, []));
      && r.1 == write.1
      && r.0 == (if write.0.Some? then Some(EtcdUnitFailed(write.0.value)) else None)
  {
    if s.externalEtcd then (Some(ExternalEtcdUnit), w)
    else
      var (err, w1) := WriteUnitEffect(w, s.unitPath, Etcd, s.unitsDir, ServiceUnitSpec(s.command, []));
      if err.Some? then (Some(EtcdUnitFailed(err.value)), w1) else (None, w1)
  }

  method CreateServiceUnitFile(host: Host, s: EtcdSetup) returns (err: Option<Error>)
    modifies host
    ensures (err, host.State()) == CreateUnitEffect(old(host.State()), s)
  {
    if s.externalEtcd {
      return Some(ExternalEtcdUnit);
    }
    var spec := ServiceUnitSpec(s.command, []);
    var writeErr := WriteUnitToDisk(host, s.unitPath, Etcd, s.unitsDir, spec);
    if writeErr.Some? {
      return Some(EtcdUnitFailed(writeErr.value));
    }
    return None;
  }

  // After a successful CreateServiceUnitFile the etcd unit file reads back as
  // the etcd unit with an empty initial cluster.
  lemma CreatedUnitReadsBack(w: World, s: EtcdSetup)
    requires CreateUnitEffect(w, s).0.None?
    requires WellFormed(ServiceUnitSpec(s.command, []))
    ensures var after := CreateUnitEffect(w, s).1;
      && s.EtcdUnitPath() in after.files
      && ParseUnit(after.files[s.EtcdUnitPath()]) == Some(ServiceUnitSpec(s.command, []))
  {
    WrittenUnitReadsBack(w, s.unitPath, Etcd, s.unitsDir, ServiceUnitSpec(s.command, []));
  }

  // ---------------------------------------------------------------------------
  // RunService (local_unit.go:102-109)

  function RunServiceEffect(w: World): (r: (Option<Error>, World))
    // no file changes
    ensures r.1 == w.(calls := r.1.calls)
    ensures r.0.None? <==> w.env.initSystem.None? && Etcd !in w.env.startErrors
    // detection comes first; the start is asked only when an init system was found
    ensures r.1.calls == w.calls + [DetectInitSystem] + (if w.env.initSystem.None? then [ServiceStart(Etcd)] else [])
  {
    var (err, w1) := w.DetectInitSystem();
    if err.Some? then (err, w1) else w1.ServiceStart(Etcd)
  }

  method RunService(host: Host) returns (err: Option<Error>)
    modifies host
    ensures (err, host.State()) == RunServiceEffect(old(host.State()))
  {
    err := host.DetectInitSystem();
    if err.Some? {
      return;
    }
    err := host.ServiceStart(Etcd);
  }

  // RunService behaves as RunServices of the control-plane phase given the
  // single component etcd.
  lemma RunServiceIsRunServicesOfEtcd(w: World)
    ensures RunServiceEffect(w) == ControlPlane.RunServicesEffect(w, [Etcd])
  {
    var w1 := w.Log(DetectInitSystem);
    if w.env.initSystem.None? {
      assert [Etcd][1..] == [];
      assert ControlPlane.StartAllEffect(w1.Log(ServiceStart(Etcd)), []) == (None, w1.Log(ServiceStart(Etcd)));
    }
  }

  // ---------------------------------------------------------------------------
  // RunStackedEtcdService (local_unit.go:51-99)

  // The member list the unit is built from: none in a dry run, otherwise
  // AddMember's answer.
  function JoinMembers(w: World, isDryRun: bool): seq<Member>
    requires isDryRun || w.env.addMember.Ok?
  {
    if isDryRun then [] else w.env.addMember.value
  }

  // The host after the client was built and, in a real run, the member added.
  function AnnouncedWorld(w: World, s: EtcdSetup, isDryRun: bool): World {
    var w1 := w.Log(NewEtcdClient(s.clientURL));
    if isDryRun then w1 else w1.Log(AddMember(s.nodeName, s.peerURL))
  }

  function StackedJoinEffect(w: World, s: EtcdSetup, isDryRun: bool): (r: (Option<Error>, World))
    ensures r.1.env == w.env
    // local_unit.go:54-57: no client, nothing else happens
    ensures w.env.etcdClient.Some? ==> r == (w.env.etcdClient, w.Log(NewEtcdClient(s.clientURL)))
    // local_unit.go:66-69: AddMember fails, nothing is written or started
    ensures w.env.etcdClient.None? && !isDryRun && w.env.addMember.Err? ==>
      r == (Some(w.env.addMember.error), AnnouncedWorld(w, s, false))
    // local_unit.go:77-86: a dry run writes the unit from the empty member
    // list and then stops
    ensures w.env.etcdClient.None? && isDryRun ==>
      var write := WriteUnitEffect(AnnouncedWorld(w, s, true), s.unitPath, Etcd, s.unitsDir, ServiceUnitSpec(s.command, []));
      && r.1 == write.1
      && r.0 == (if write.0.Some? then Some(EtcdJoinUnitFailed(write.0.value)) else None)
    // local_unit.go:79-81: the unit is written from the members AddMember
    // returned; a failed write is wrapped and nothing is started
    ensures w.env.etcdClient.None? && (isDryRun || w.env.addMember.Ok?) ==>
      var write := WriteUnitEffect(AnnouncedWorld(w, s, isDryRun), s.unitPath, Etcd, s.unitsDir,
        ServiceUnitSpec(s.command, JoinMembers(w, isDryRun)));
      write.0.Some? ==> r == (Some(EtcdJoinUnitFailed(write.0.value)), write.1)
    // local_unit.go:88-97: in a real run the service is started after the
    // write; a failed start skips the wait, otherwise the wait decides
    ensures w.env.etcdClient.None? && !isDryRun && w.env.addMember.Ok? ==>
      var write := WriteUnitEffect(AnnouncedWorld(w, s, false), s.unitPath, Etcd, s.unitsDir,
        ServiceUnitSpec(s.command, w.env.addMember.value));
      var start := RunServiceEffect(write.1);
      write.0.None? ==>
        if start.0.Some? then r == start
        else r == (w.env.clusterAvailable, start.1.Log(WaitForClusterAvailable(EtcdHealthyCheckRetries)))
  {
    var (clientErr, w1) := w.NewEtcdClient(s.clientURL);
    if clientErr.Some? then (clientErr, w1)
    else
      var (cluster, w2) := if isDryRun then (Ok([]), w1) else w1.AddMember(s.nodeName, s.peerURL);
      if cluster.Err? then (Some(cluster.error), w2)
      else
        var (writeErr, w3) := WriteUnitEffect(w2, s.unitPath, Etcd, s.unitsDir, ServiceUnitSpec(s.command, cluster.value));
        if writeErr.Some? then (Some(EtcdJoinUnitFailed(writeErr.value)), w3)
        else if isDryRun then (None, w3)
        else
          var (startErr, w4) := RunServiceEffect(w3);
          if startErr.Some? then (startErr, w4)
          else w4.WaitForClusterAvailable(EtcdHealthyCheckRetries)
  }

  method RunStackedEtcdService(host: Host, s: EtcdSetup, isDryRun: bool) returns (err: Option<Error>)
    modifies host
    ensures (err, host.State()) == StackedJoinEffect(old(host.State()), s, isDryRun)
  {
    err := host.NewEtcdClient(s.clientURL);
    if err.Some? {
      return;
    }
    var cluster: seq<Member> := [];
    if !isDryRun {
      var added := host.AddMember(s.nodeName, s.peerURL);
      if added.Err? {
        return Some(added.error);
      }
      cluster := added.value;
    }
    var spec := ServiceUnitSpec(s.command, cluster);
    var writeErr := WriteUnitToDisk(host, s.unitPath, Etcd, s.unitsDir, spec);
    if writeErr.Some? {
      return Some(EtcdJoinUnitFailed(writeErr.value));
    }
    if isDryRun {
      return None;
    }
    err := RunService(host);
    if err.Some? {
      return;
    }
    err := host.WaitForClusterAvailable(EtcdHealthyCheckRetries);
  }

  // A call that reaches the etcd cluster or starts a service.
  predicate ContactsCluster(c: Call) {
    c.AddMember? || c.ServiceStart? || c.DetectInitSystem? || c.WaitForClusterAvailable?
  }

  // local_unit.go:62-63, 83-86: a dry run never announces the member, never
  // starts etcd and never waits; it still writes the unit file and succeeds
  // exactly when that write does.
  lemma DryRunTouchesOnlyTheUnitFile(w: World, s: EtcdSetup)
    requires w.env.etcdClient.None?
    ensures var r := StackedJoinEffect(w, s, true);
      && (forall i :: |w.calls| <= i < |r.1.calls| ==> !ContactsCluster(r.1.calls[i]))
      && (r.0.None? <==> w.CanMkdir(s.unitsDir) && w.CanWrite(s.EtcdUnitPath()))
      && (r.0.None? ==> r.1.files == w.files[s.EtcdUnitPath() := RenderUnit(ServiceUnitSpec(s.command, []))])
  {
    var w1 := AnnouncedWorld(w, s, true);
    var r := StackedJoinEffect(w, s, true);
    assert w1.calls == w.calls + [NewEtcdClient(s.clientURL)];
    assert forall i :: |w.calls| <= i < |r.1.calls| ==>
      r.1.calls[i] in [NewEtcdClient(s.clientURL), MkdirAll(s.unitsDir), WriteFile(s.EtcdUnitPath(), RenderUnit(ServiceUnitSpec(s.command, [])))];
  }

  // A real join that goes through makes its calls in this order: client,
  // AddMember, directory, unit file, init system, start, wait; the unit
  // holds exactly the member list AddMember returned.
  lemma RealRunOrder(w: World, s: EtcdSetup)
    requires w.env.etcdClient.None? && w.env.addMember.Ok?
    requires StackedJoinEffect(w, s, false).0.None?
    ensures var r := StackedJoinEffect(w, s, false);
      var text := RenderUnit(ServiceUnitSpec(s.command, w.env.addMember.value));
      && r.1.calls == w.calls + [NewEtcdClient(s.clientURL), AddMember(s.nodeName, s.peerURL),
           MkdirAll(s.unitsDir), WriteFile(s.EtcdUnitPath(), text),
           DetectInitSystem, ServiceStart(Etcd), WaitForClusterAvailable(EtcdHealthyCheckRetries)]
      && r.1.files == w.files[s.EtcdUnitPath() := text]
  {
    var w2 := AnnouncedWorld(w, s, false);
    var write := WriteUnitEffect(w2, s.unitPath, Etcd, s.unitsDir, ServiceUnitSpec(s.command, w.env.addMember.value));
    assert write.0.None?;
    var start := RunServiceEffect(write.1);
    assert start.0.None?;
  }

  // A real join succeeds exactly when every collaborator does.
  lemma RealRunSucceeds(w: World, s: EtcdSetup)
    ensures StackedJoinEffect(w, s, false).0.None? <==>
      && w.env.etcdClient.None?
      && w.env.addMember.Ok?
      && w.CanMkdir(s.unitsDir) && w.CanWrite(s.EtcdUnitPath())
      && w.env.initSystem.None? && Etcd !in w.env.startErrors
      && w.env.clusterAvailable.None?
  {
    if w.env.etcdClient.None? && w.env.addMember.Ok? {
      var w2 := AnnouncedWorld(w, s, false);
      assert w2.CanMkdir(s.unitsDir) == w.CanMkdir(s.unitsDir);
    }
  }

  // local_unit.go:51-99 never looks at cfg.Etcd.External: the join writes
  // and starts etcd even where CreateServiceUnitFile refuses to.
  lemma JoinIgnoresExternalEtcd(w: World, s: EtcdSetup, isDryRun: bool)
    requires s.externalEtcd
    requires w.env.etcdClient.None? && w.CanMkdir(s.unitsDir) && w.CanWrite(s.EtcdUnitPath())
    ensures CreateUnitEffect(w, s).0 == Some(ExternalEtcdUnit)
    ensures var r := StackedJoinEffect(w, s, isDryRun);
      isDryRun ==> r.0.None? && s.EtcdUnitPath() in r.1.files
  {
    if isDryRun {
      DryRunTouchesOnlyTheUnitFile(w, s);
    }
  }
}
