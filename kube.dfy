/**
  The slice of the cluster's object model that the cleaner looks at: a
  persistent volume claim is a name and a phase, a pod is its list of
  volumes, and a volume either has a claim source (naming a claim) or not.
  Everything else about these objects is opaque to the cleaner.
 */
module Kube {

  datatype Option<T> = None | Some(value: T)

  /** The lifecycle phase of a claim; only `Bound` is distinguished by the cleaner. */
  datatype Phase = Pending | Bound | Lost | Unknown

  datatype Claim = Claim(name: string, phase: Phase)

  /** A pod volume; `claimSource` is `Some(claimName)` when the volume is backed by a claim. */
  datatype Volume = Volume(claimSource: Option<string>)

  datatype Pod = Pod(volumes: seq<Volume>)

  /** The configuration record read at start-up (keys prefixFilter, namespace, sufixFilter). */
  datatype Conf = Conf(prefixFilter: string, namespace: string, sufixFilter: string)

  /** What the API answered to one delete request. */
  datatype DeleteResult = Deleted | DeleteFailed(reason: string)

  /** One delete request the cleaner issued, with the API's answer. */
  datatype Attempt = Attempt(name: string, result: DeleteResult)
}
