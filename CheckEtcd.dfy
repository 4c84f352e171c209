// cmd/kubeadm/app/cmd/phases/join/checketcd.go: the check-etcd phase of
// `kubeadm join`, as the decision of which etcd health check to run.  The two
// checks themselves (CheckLocalEtcdClusterStatus and
// CheckLocalEtcdClusterStatusByDiscoveringPods) are not part of this model;
// the phase returns whatever the chosen check returns.
module CheckEtcd {
  import opened Errors

  // The part of the init configuration the phase looks at.
  datatype InitConfig = InitConfig(externalEtcd: bool)

  // A client of the cluster's API server, as data.ClientSet() hands it out.
  datatype ClientSet = ClientSet(server: string)

  // What a JoinData answers.
  datatype JoinData = JoinData(
    // data.Cfg().ControlPlane != nil
    controlPlane: bool,
    // data.InitCfg()
    initCfg: Result<InitConfig>,
    // data.ServiceHosting()
    serviceHosting: bool,
    // data.Cfg().Discovery.BootstrapToken: its APIServerEndpoint, or None for a nil pointer
    bootstrapToken: Option<string>,
    // data.ClientSet()
    clientSet: Result<ClientSet>,
    // data.CertificateWriteDir()
    certificateWriteDir: string)

  // The run data handed to the phase: a JoinData, or something else.
  datatype RunData = Join(data: JoinData) | OtherRunData

  datatype Outcome =
    | Fail(error: Error)
    // the phase returns nil without checking anything
    | Skip
    // CheckLocalEtcdClusterStatus(url, certificatesDir) is run and its result returned
    | CheckViaEndpoint(url: string, certificatesDir: string)
    // CheckLocalEtcdClusterStatusByDiscoveringPods(client, certificatesDir) is run and its result returned
    | CheckViaDiscovery(client: ClientSet, certificatesDir: string)
    // the phase dereferences a nil BootstrapToken (checketcd.go:66) and panics
    | NilBootstrapToken

  // The configuration reached the etcd check: a control-plane join whose
  // init configuration loaded and that uses a local etcd.
  predicate ReachesCheck(c: RunData) {
    c.Join? && c.data.controlPlane && c.data.initCfg.Ok? && !c.data.initCfg.value.externalEtcd
  }

  // runCheckEtcdPhase (checketcd.go:39-79).  `clientURLFromJoinEndpoint` is
  // etcdutil.GetClientURLFromJoinEndpoint.
  function RunCheckEtcdPhase(c: RunData, clientURLFromJoinEndpoint: string -> string): (o: Outcome)
    // checketcd.go:40-43
    ensures c.OtherRunData? ==> o == Fail(InvalidRunData)
    // checketcd.go:46-48 and 55-58: no check for a worker, nor with external etcd
    ensures o == Skip <==>
      c.Join? && (!c.data.controlPlane || (c.data.initCfg.Ok? && c.data.initCfg.value.externalEtcd))
    // checketcd.go:50-53: the InitCfg error is returned as it is
    ensures c.Join? && c.data.controlPlane && c.data.initCfg.Err? ==> o == Fail(c.data.initCfg.error)
    // checketcd.go:62-68: a service-hosted node checks the endpoint it joins
    ensures o.CheckViaEndpoint? <==> ReachesCheck(c) && c.data.serviceHosting && c.data.bootstrapToken.Some?
    ensures o.CheckViaEndpoint? ==>
      o.url == clientURLFromJoinEndpoint(c.data.bootstrapToken.value) && o.certificatesDir == c.data.certificateWriteDir
    ensures o.NilBootstrapToken? <==> ReachesCheck(c) && c.data.serviceHosting && c.data.bootstrapToken.None?
    // checketcd.go:73-78: otherwise the pods are discovered through the client
    ensures o.CheckViaDiscovery? <==> ReachesCheck(c) && !c.data.serviceHosting && c.data.clientSet.Ok?
    ensures o.CheckViaDiscovery? ==>
      o.client == c.data.clientSet.value && o.certificatesDir == c.data.certificateWriteDir
    ensures ReachesCheck(c) && !c.data.serviceHosting && c.data.clientSet.Err? ==> o == Fail(c.data.clientSet.error)
  {
    match c
    case OtherRunData => Fail(InvalidRunData)
    case Join(data) =>
      if !data.controlPlane then Skip
      else if data.initCfg.Err? then Fail(data.initCfg.error)
      else if data.initCfg.value.externalEtcd then Skip
      else if data.serviceHosting then
        match data.bootstrapToken
        case None => NilBootstrapToken
        case Some(endpoint) => CheckViaEndpoint(clientURLFromJoinEndpoint(endpoint), data.certificateWriteDir)
      else if data.clientSet.Err? then Fail(data.clientSet.error)
      else CheckViaDiscovery(data.clientSet.value, data.certificateWriteDir)
  }

  // A join that is not for a control-plane node does not depend on the
  // init configuration or anything after it.
  lemma WorkerIgnoresInitCfg(data: JoinData, initCfg: Result<InitConfig>, f: string -> string)
    requires !data.controlPlane
    ensures RunCheckEtcdPhase(Join(data.(initCfg := initCfg)), f) == RunCheckEtcdPhase(Join(data), f) == Skip
  {
  }

  // A service-hosted control plane never asks for a client set.
  lemma ServiceHostedIgnoresClientSet(data: JoinData, clientSet: Result<ClientSet>, f: string -> string)
    requires data.serviceHosting
    ensures RunCheckEtcdPhase(Join(data.(clientSet := clientSet)), f) == RunCheckEtcdPhase(Join(data), f)
  {
  }

  // Without service hosting the join endpoint is never read.
  lemma DiscoveryIgnoresBootstrapToken(data: JoinData, token: Option<string>, f: string -> string)
    requires !data.serviceHosting
    ensures RunCheckEtcdPhase(Join(data.(bootstrapToken := token)), f) == RunCheckEtcdPhase(Join(data), f)
  {
  }
}
