/**
 The Kubernetes objects the machine scope reads and writes, reduced to the
 fields it uses, and the errors its operations return.
 */
module Api {

  /** A Go pointer that may be nil. */
  datatype Option<+T> = None | Some(value: T)

  /** A Go `(value, error)` return where the value is meaningful only without error. */
  datatype Result<+T> = Ok(value: T) | Err(error: ScopeError)

  /** The pointee, or `default` when the pointer is nil (the `ptr.Deref` helper). */
  function Deref<T>(p: Option<T>, default: T): T
  {
    match p
    case Some(v) => v
    case None => default
  }

  /** Namespace and name, the key under which the resource store holds an object. */
  datatype ObjectKey = ObjectKey(namespace: string, name: string)

  /** Object metadata; the creation timestamp is in whole seconds, as the API server records it. */
  datatype ObjectMeta = ObjectMeta(name: string, namespace: string, creationTimestamp: int)

  /** The Cluster API Machine: its metadata and the bootstrap data secret name, if any yet. */
  datatype CapiMachine = CapiMachine(meta: ObjectMeta, dataSecretName: Option<string>)

  datatype IonosMachineSpec = IonosMachineSpec(datacenterID: string, providerID: Option<string>)

  datatype IonosMachineStatus = IonosMachineStatus(failureReason: Option<string>, failureMessage: Option<string>)

  /** The provider-specific machine object (IonosCloudMachine). */
  datatype IonosCloudMachine = IonosCloudMachine(meta: ObjectMeta, spec: IonosMachineSpec, status: IonosMachineStatus)

  /** A Kubernetes Secret, reduced to its data. */
  datatype Secret = Secret(data: map<string, string>)

  /** The errors the machine scope returns or passes through. */
  datatype ScopeError =
    | MissingClient                    // NewMachine: params lack a client
    | MissingMachine                   // NewMachine: params lack a Cluster API machine
    | MissingIonosMachine              // NewMachine: params lack an IONOS Cloud machine
    | MissingClusterScope              // NewMachine: params lack a cluster scope
    | PatchHelperInit(cause: string)   // NewMachine: the patch helper could not be created
    | NoBootstrapData                  // GetBootstrapDataSecret: no secret name yet
    | NotFound(key: ObjectKey)         // the resource store holds no object under the key
    | StoreFailed(cause: string)       // any other error of the resource store
    | ListFailed(cause: string)        // the cluster scope could not list the machines
}
