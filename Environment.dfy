// The host and the remote collaborators that the modelled kubeadm code talks to
// but whose code is not part of this model: the file system (os, ioutil), the
// init system (initsystem.GetInitSystem and ServiceStart) and the etcd client
// (etcdutil.NewFromEndpoint, AddMember, WaitForClusterAvailable).
//
// Each collaborator is an oracle: what it answers is fixed in an `Env` value,
// chosen freely by whoever states a property.  Every call made to a
// collaborator is appended to a call log, so that contracts can speak about
// which calls happened and in which order.
module Environment {
  import opened Errors

  // etcdutil.Member: one member of the etcd cluster
  datatype Member = Member(name: string, peerURL: string)

  // One call to a collaborator, as it appears in the call log.
  datatype Call =
    | Stat(path: string)
    | ReadFile(path: string)
    | MkdirAll(dir: string)
    | WriteFile(path: string, content: string)
    | DetectInitSystem
    | ServiceStart(unit: string)
    | NewEtcdClient(endpoint: string)
    | AddMember(name: string, peerURL: string)
    | WaitForClusterAvailable(retries: nat)

  // What the collaborators answer.
  datatype Env = Env(
    // paths that the process may not create or write (permissions, read-only mounts)
    denied: set<string>,
    // the error GetInitSystem returns, if no supported init system is found
    initSystem: Option<Error>,
    // ServiceStart(unit) fails with startErrors[unit] when unit is a key
    startErrors: map<string, Error>,
    // the error NewFromEndpoint returns, if the client cannot be built
    etcdClient: Option<Error>,
    // the answer of AddMember: the member list after the addition, or an error
    addMember: Result<seq<Member>>,
    // the error WaitForClusterAvailable returns once its attempts are spent
    clusterAvailable: Option<Error>)

  // The observable state of the host: the collaborators' answers, the file
  // system, and the log of every call made so far.
  datatype World = World(env: Env, files: map<string, string>, dirs: set<string>, calls: seq<Call>) {

    predicate Exists(path: string) {
      path in files || path in dirs
    }

    // os.MkdirAll(dir) succeeds in this state
    predicate CanMkdir(dir: string) {
      dir in dirs || dir !in env.denied
    }

    // ioutil.WriteFile(path, ...) succeeds in this state
    predicate CanWrite(path: string) {
      path !in env.denied
    }

    function Log(c: Call): World {
      this.(calls := calls + [c])
    }

    // os.Stat: reports whether the path exists.
    function Stat(path: string): (bool, World) {
      (Exists(path), Log(Call.Stat(path)))
    }

    // ioutil.ReadFile: the content of an existing file.
    function ReadFile(path: string): (Result<string>, World) {
      (if path in files then Ok(files[path]) else Err(PathError("open", path)), Log(Call.ReadFile(path)))
    }

    // os.MkdirAll: succeeds at once on an existing directory, fails on a
    // denied path, and otherwise creates the directory.
    function MkdirAll(dir: string): (Option<Error>, World) {
      var w := Log(Call.MkdirAll(dir));
      if dir in dirs then (None, w)
      else if dir in env.denied then (Some(PathError("mkdir", dir)), w)
      else (None, w.(dirs := dirs + {dir}))
    }

    // ioutil.WriteFile: replaces the whole content of the file, or fails on a
    // denied path and leaves the file as it was.
    function WriteFile(path: string, content: string): (Option<Error>, World) {
      var w := Log(Call.WriteFile(path, content));
      if path in env.denied then (Some(PathError("open", path)), w)
      else (None, w.(files := files[path := content]))
    }

    function DetectInitSystem(): (Option<Error>, World) {
      (env.initSystem, Log(Call.DetectInitSystem))
    }

    function ServiceStart(unit: string): (Option<Error>, World) {
      (if unit in env.startErrors then Some(env.startErrors[unit]) else None, Log(Call.ServiceStart(unit)))
    }

    function NewEtcdClient(endpoint: string): (Option<Error>, World) {
      (env.etcdClient, Log(Call.NewEtcdClient(endpoint)))
    }

    function AddMember(name: string, peerURL: string): (Result<seq<Member>>, World) {
      (env.addMember, Log(Call.AddMember(name, peerURL)))
    }

    function WaitForClusterAvailable(retries: nat): (Option<Error>, World) {
      (env.clusterAvailable, Log(Call.WaitForClusterAvailable(retries)))
    }
  }

  // The host as the imperative code sees it: a file system that the calls
  // change in place, and the call log.
  class Host {
    const env: Env
    var files: map<string, string>
    var dirs: set<string>
    var calls: seq<Call>

    function State(): World
      reads this
    {
      World(env, files, dirs, calls)
    }

    constructor (env: Env, files: map<string, string>, dirs: set<string>)
      ensures State() == World(env, files, dirs, [])
    {
      this.env := env;
      this.files := files;
      this.dirs := dirs;
      this.calls := [];
    }

    method Stat(path: string) returns (present: bool)
      modifies this
      ensures (present, State()) == old(State()).Stat(path)
    {
      present := path in files || path in dirs;
      calls := calls + [Call.Stat(path)];
    }

    method ReadFile(path: string) returns (content: Result<string>)
      modifies this
      ensures (content, State()) == old(State()).ReadFile(path)
    {
      if path in files {
        content := Ok(files[path]);
      } else {
        content := Err(PathError("open", path));
      }
      calls := calls + [Call.ReadFile(path)];
    }

    method MkdirAll(dir: string) returns (err: Option<Error>)
      modifies this
      ensures (err, State()) == old(State()).MkdirAll(dir)
    {
      calls := calls + [Call.MkdirAll(dir)];
      err := None;
      if dir !in dirs {
        if dir in env.denied {
          err := Some(PathError("mkdir", dir));
        } else {
          dirs := dirs + {dir};
        }
      }
    }

    method WriteFile(path: string, content: string) returns (err: Option<Error>)
      modifies this
      ensures (err, State()) == old(State()).WriteFile(path, content)
    {
      calls := calls + [Call.WriteFile(path, content)];
      if path in env.denied {
        err := Some(PathError("open", path));
      } else {
        err := None;
        files := files[path := content];
      }
    }

    method DetectInitSystem() returns (err: Option<Error>)
      modifies this
      ensures (err, State()) == old(State()).DetectInitSystem()
    {
      calls := calls + [Call.DetectInitSystem];
      err := env.initSystem;
    }

    method ServiceStart(unit: string) returns (err: Option<Error>)
      modifies this
      ensures (err, State()) == old(State()).ServiceStart(unit)
    {
      calls := calls + [Call.ServiceStart(unit)];
      err := if unit in env.startErrors then Some(env.startErrors[unit]) else None;
    }

    method NewEtcdClient(endpoint: string) returns (err: Option<Error>)
      modifies this
      ensures (err, State()) == old(State()).NewEtcdClient(endpoint)
    {
      calls := calls + [Call.NewEtcdClient(endpoint)];
      err := env.etcdClient;
    }

    method AddMember(name: string, peerURL: string) returns (members: Result<seq<Member>>)
      modifies this
      ensures (members, State()) == old(State()).AddMember(name, peerURL)
    {
      calls := calls + [Call.AddMember(name, peerURL)];
      members := env.addMember;
    }

    method WaitForClusterAvailable(retries: nat) returns (err: Option<Error>)
      modifies this
      ensures (err, State()) == old(State()).WaitForClusterAvailable(retries)
    {
      calls := calls + [Call.WaitForClusterAvailable(retries)];
      err := env.clusterAvailable;
    }
  }
}
