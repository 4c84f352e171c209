// Option, Result and the error values of the kubeadm code modelled here.
//
// Go returns `error` values built with errors.New, errors.Wrap(f) and
// fmt.Errorf.  The model keeps their structure instead of their text: one
// constructor per place in the source that builds or wraps an error, so that a
// contract can say which error comes back and what it wraps.
module Errors {

  datatype Option<+T> = None | Some(value: T) {
    predicate IsFailure() { None? }

    function PropagateFailure<U>(): Option<U>
      requires None?
    {
      None
    }

    function Extract(): T
      requires Some?
    {
      value
    }
  }

  datatype Error =
    // an *os.PathError from the file system: the operation and the path
    | PathError(op: string, path: string)
    // unit.go:94, "failed to create directory"
    | DirectoryNotCreated(dir: string, cause: Error)
    // unit.go:107, "failed to write unit file"
    | UnitFileNotWritten(component: string, file: string, cause: Error)
    // units.go:79, "couldn't retrieve service unit"
    | UnknownComponent(name: string)
    // units.go:83, "failed to create service unit file for <component>"
    | ComponentUnitFailed(name: string, cause: Error)
    // local_unit.go:33, "etcd unit file cannot be generated for cluster using external etcd"
    | ExternalEtcdUnit
    // local_unit.go:40, "failed to create service unit file for etcd"
    | EtcdUnitFailed(cause: Error)
    // local_unit.go:80, "[etcd] failed to create service unit file"
    | EtcdJoinUnitFailed(cause: Error)
    // checketcd.go:42, "check-etcd phase invoked with an invalid data struct"
    | InvalidRunData
    // utils.go:30, "failed to mark the node as service-hosted"
    | MarkFailed(cause: Error)

  datatype Result<+T> = Ok(value: T) | Err(error: Error) {
    predicate IsFailure() { Err? }

    function PropagateFailure<U>(): Result<U>
      requires Err?
    {
      Err(error)
    }

    function Extract(): T
      requires Ok?
    {
      value
    }
  }
}
