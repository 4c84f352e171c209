// cmd/kubeadm/app/util/servicehosting/utils.go: the marker file that says a
// node's control plane runs as host services, and the configuration stored in
// it, which the package loads once and then keeps in the package variable
// `loadedCfg`.
module ServiceHosting {
  import opened Errors
  import opened Environment

  // LocalConfig (utils.go:14-16)
  datatype LocalConfig = LocalConfig(kubeAPIServerAdvertiseAddressEndpoint: string)

  // yaml.Marshal and yaml.Unmarshal, whose code is not part of this model:
  // each may fail.
  datatype Codec = Codec(marshal: LocalConfig -> Result<string>, unmarshal: string -> Result<LocalConfig>) {
    // Unmarshalling what was marshalled gives the configuration back.
    predicate RoundTrips(cfg: LocalConfig) {
      marshal(cfg).Ok? ==> unmarshal(marshal(cfg).value) == Ok(cfg)
    }
  }

  // What the package needs from outside: the host, the marker path
  // (kubeadmconstants.GetServiceHostedConfigFilepath()), filepath.Dir and the
  // YAML codec.
  datatype Setup = Setup(configPath: string, dirOf: string -> string, yaml: Codec)

  // IsServiceHostedControlPlane (utils.go:21-24): the marker path exists.
  function IsServiceHostedEffect(w: World, s: Setup): (r: (bool, World))
    ensures r.0 <==> s.configPath in w.files || s.configPath in w.dirs
    ensures r.1 == w.Log(Stat(s.configPath))
  {
    w.Stat(s.configPath)
  }

  // writeToFile (utils.go:56-74)
  function WriteToFileEffect(w: World, s: Setup, cfg: LocalConfig, filename: string): (r: (Option<Error>, World))
    ensures r.1.env == w.env
    // utils.go:57-60: nothing happens when the configuration cannot be serialised
    ensures s.yaml.marshal(cfg).Err? ==> r == (Some(s.yaml.marshal(cfg).error), w)
    // the write succeeds exactly when serialising works, the directory exists
    // or can be made, and the file can be written
    ensures r.0.None? <==>
      && s.yaml.marshal(cfg).Ok?
      && (w.Exists(s.dirOf(filename)) || w.CanMkdir(s.dirOf(filename)))
      && w.CanWrite(filename)
    ensures r.0.None? ==> r.1.files == w.files[filename := s.yaml.marshal(cfg).value]
    // utils.go:62-67: the directory is made only when it is missing
    // (with mode 0600), and the file is written only when the directory is there
    ensures s.yaml.marshal(cfg).Ok? ==>
      var dir := s.dirOf(filename);
      r.1.calls == w.calls + [Stat(dir)] + (if w.Exists(dir) then [] else [MkdirAll(dir)]) +
        (if w.Exists(dir) || w.CanMkdir(dir) then [WriteFile(filename, s.yaml.marshal(cfg).value)] else [])
  {
    match s.yaml.marshal(cfg)
    case Err(e) => (Some(e), w)
    case Ok(content) =>
      var dir := s.dirOf(filename);
      var (present, w1) := w.Stat(dir);
      var (mkdirErr, w2) := if present then (None, w1) else w1.MkdirAll(dir);
      if mkdirErr.Some? then (mkdirErr, w2)
      else w2.WriteFile(filename, content)
  }

  // MarkControlPlaneAsServiceHosted (utils.go:27-34)
  function MarkEffect(w: World, s: Setup, cfg: LocalConfig): (r: (Option<Error>, World))
    ensures var write := WriteToFileEffect(w, s, cfg, s.configPath);
      && r.1 == write.1
      && r.0 == (if write.0.Some? then Some(MarkFailed(write.0.value)) else None)
  {
    var (err, w1) := WriteToFileEffect(w, s, cfg, s.configPath);
    if err.Some? then (Some(MarkFailed(err.value)), w1) else (None, w1)
  }

  // LoadServiceHostedConfig (utils.go:36-54), given the cache and the host:
  // the answer, the new cache and the new host.
  function LoadEffect(cache: Option<LocalConfig>, w: World, s: Setup): (r: (Result<LocalConfig>, Option<LocalConfig>, World))
    // utils.go:37-39: a cached configuration is returned without reading the file
    ensures cache.Some? ==> r == (Ok(cache.value), cache, w)
    // loading touches no file
    ensures r.2 == w.(calls := r.2.calls)
    // utils.go:41-44: the file cannot be read, the cache stays empty
    ensures cache.None? && s.configPath !in w.files ==>
      r == (Err(PathError("open", s.configPath)), None, w.Log(ReadFile(s.configPath)))
    // utils.go:46-53: the cache is set exactly when the content parses, and
    // then holds the parsed configuration
    ensures cache.None? && s.configPath in w.files ==>
      && r.0 == s.yaml.unmarshal(w.files[s.configPath])
      && r.1 == (if r.0.Ok? then Some(r.0.value) else None)
      && r.2 == w.Log(ReadFile(s.configPath))
  {
    if cache.Some? then (Ok(cache.value), cache, w)
    else
      var (content, w1) := w.ReadFile(s.configPath);
      match content
      case Err(e) => (Err(e), None, w1)
      case Ok(text) =>
        match s.yaml.unmarshal(text)
        case Err(e) => (Err(e), None, w1)
        case Ok(cfg) => (Ok(cfg), Some(cfg), w1)
  }

  // The package state: the host it runs on and the `loadedCfg` cache.
  class ServiceHostedState {
    const host: Host
    const setup: Setup
    var loadedCfg: Option<LocalConfig>

    constructor (host: Host, setup: Setup)
      ensures this.host == host && this.setup == setup && loadedCfg == None
    {
      this.host := host;
      this.setup := setup;
      loadedCfg := None;
    }

    method IsServiceHostedControlPlane() returns (hosted: bool)
      modifies host
      ensures (hosted, host.State()) == IsServiceHostedEffect(old(host.State()), setup)
    {
      hosted := host.Stat(setup.configPath);
    }

    method MarkControlPlaneAsServiceHosted(cfg: LocalConfig) returns (err: Option<Error>)
      modifies host
      ensures (err, host.State()) == MarkEffect(old(host.State()), setup, cfg)
    {
      err := WriteToFile(cfg, setup.configPath);
      if err.Some? {
        err := Some(MarkFailed(err.value));
      }
    }

    method LoadServiceHostedConfig() returns (cfg: Result<LocalConfig>)
      modifies this, host
      ensures (cfg, loadedCfg, host.State()) == LoadEffect(old(loadedCfg), old(host.State()), setup)
    {
      if loadedCfg.Some? {
        return Ok(loadedCfg.value);
      }
      var content := host.ReadFile(setup.configPath);
      if content.Err? {
        return Err(content.error);
      }
      var parsed := setup.yaml.unmarshal(content.value);
      if parsed.Err? {
        return Err(parsed.error);
      }
      loadedCfg := Some(parsed.value);
      return Ok(parsed.value);
    }

    method WriteToFile(cfg: LocalConfig, filename: string) returns (err: Option<Error>)
      modifies host
      ensures (err, host.State()) == WriteToFileEffect(old(host.State()), setup, cfg, filename)
    {
      var content := setup.yaml.marshal(cfg);
      if content.Err? {
        return Some(content.error);
      }
      var dir := setup.dirOf(filename);
      var present := host.Stat(dir);
      if !present {
        err := host.MkdirAll(dir);
        if err.Some? {
          return;
        }
      }
      err := host.WriteFile(filename, content.value);
    }
  }

  // Marking a node makes it service-hosted, and a load with an empty cache
  // then gives back the configuration that was marked.
  lemma MarkThenLoad(w: World, s: Setup, cfg: LocalConfig)
    requires MarkEffect(w, s, cfg).0.None?
    requires s.yaml.RoundTrips(cfg)
    ensures IsServiceHostedEffect(MarkEffect(w, s, cfg).1, s).0
    ensures LoadEffect(None, MarkEffect(w, s, cfg).1, s).0 == Ok(cfg)
    ensures LoadEffect(None, MarkEffect(w, s, cfg).1, s).1 == Some(cfg)
  {
  }

  // Once loaded, the configuration is kept: marking the node again with a
  // different configuration, or any other change of the marker file, does
  // not change what a later load returns.
  lemma LoadedConfigIsSticky(w: World, s: Setup, later: World, cfg: LocalConfig)
    requires LoadEffect(None, w, s).0.Ok?
    ensures var first := LoadEffect(None, w, s);
      var second := LoadEffect(first.1, MarkEffect(later, s, cfg).1, s);
      second.0 == first.0 && second.1 == first.1 && second.2 == MarkEffect(later, s, cfg).1
  {
  }

  // A failed load leaves the cache empty, so the next load reads the file
  // again.
  lemma FailedLoadRetries(w: World, s: Setup, later: World)
    requires LoadEffect(None, w, s).0.Err?
    ensures LoadEffect(None, w, s).1 == None
    ensures LoadEffect(LoadEffect(None, w, s).1, later, s).2.calls == later.calls + [ReadFile(s.configPath)]
  {
  }
}
