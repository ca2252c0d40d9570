/**
 * Data model of the ConfigMap controller of the NSX container plugin operator:
 * the objects it reads and writes, the outcomes of the remote calls it makes,
 * the external collaborators it consults, and the state it keeps between cycles.
 */
module Types {

  datatype Option<+T> = None | Some(value: T)

  /** An error returned by a remote call or by an external collaborator.
      `ReferenceError` is the wrapping the controller adds when an owner
      reference cannot be set on a rendered object. */
  datatype Error =
    | Error(message: string)
    | ReferenceError(kind: string, namespace: string, name: string, cause: Error)

  datatype Result<+T> = Success(value: T) | Failure(error: Error)

  /** The outcome of a call that returns only an error value. */
  datatype Outcome = Pass | Fail(error: Error)

  /** The three ways a `Get` from the cluster can end. */
  datatype ReadResult<+T> = Found(value: T) | NotFound | ReadFailed(error: Error)

  /** A read error of any kind counts as absence (used where the controller
      only logs the error and carries on with a nil object). */
  function Present<T>(r: ReadResult<T>): (o: Option<T>)
    ensures o.Some? <==> r.Found?
    ensures o.Some? ==> o.value == r.value
  {
    if r.Found? then Some(r.value) else None
  }

  // ---------------------------------------------------------------------
  // Fixed identifiers (declared in pkg/types, which is not part of this
  // model; only their distinctness matters to the proofs).

  const OperatorNamespace: string := "nsx-system-operator"
  const ConfigMapName: string := "nsx-ncp-operator-config"
  const NetworkCRDName: string := "cluster"
  const NsxNamespace: string := "nsx-system"
  const NcpConfigMapName: string := "nsx-ncp-config"
  const NodeAgentConfigMapName: string := "nsx-node-agent-config"
  const LbSecret: string := "lb-secret"
  const NsxNcpDeploymentName: string := "nsx-ncp"
  const NsxNodeAgentDsName: string := "nsx-node-agent"
  const NsxNcpBootstrapDsName: string := "nsx-ncp-bootstrap"

  // ---------------------------------------------------------------------
  // Cluster objects

  /** A reconcile request: the namespace and name of the object that changed. */
  datatype Request = Request(namespace: string, name: string)

  datatype ConfigMap = ConfigMap(namespace: string, name: string, data: map<string, string>)

  datatype Secret = Secret(namespace: string, name: string, data: map<string, string>)

  datatype ClusterNetworkEntry = ClusterNetworkEntry(cidr: string, hostPrefix: nat)

  datatype NetworkSpec = NetworkSpec(
    clusterNetwork: seq<ClusterNetworkEntry>,
    serviceNetwork: seq<string>,
    networkType: string)

  datatype NetworkStatus = NetworkStatus(
    clusterNetwork: seq<ClusterNetworkEntry>,
    serviceNetwork: seq<string>,
    networkType: string)

  /** The status every field of which is the zero value. */
  const EmptyStatus: NetworkStatus := NetworkStatus([], [], "")

  /** The cluster-wide Network CRD. */
  datatype Network = Network(name: string, spec: NetworkSpec, status: NetworkStatus)

  datatype Container = Container(name: string, image: string)

  datatype Deployment = Deployment(namespace: string, name: string, containers: seq<Container>)

  /** A rendered object. `controller` names the owner that holds its
      controller reference, if any; `content` stands for the rest of it. */
  datatype Obj = Obj(
    kind: string,
    namespace: string,
    name: string,
    controller: Option<string>,
    content: map<string, string>)

  // ---------------------------------------------------------------------
  // What the controller reports

  /** The two concerns the status manager tracks. */
  datatype Concern = OperatorConfig | ClusterConfig

  /** One call on the status manager. The formatted message is not modelled. */
  datatype StatusUpdate =
    | SetDegraded(concern: Concern, reason: string)
    | SetNotDegraded(concern: Concern)

  /** The two calls a successful cycle ends with. */
  const AllClear: seq<StatusUpdate> := [SetNotDegraded(ClusterConfig), SetNotDegraded(OperatorConfig)]

  /** A change the cycle made to the cluster. */
  datatype Action =
    | Applied(obj: Obj)
    | PodsDeleted(component: string)
    | NetworkStatusApplied(network: Network)

  /** What Reconcile returns: the requeue flag of reconcile.Result and the error. */
  datatype Response = Response(requeue: bool, err: Option<Error>)

  const Done: Response := Response(false, None)

  // ---------------------------------------------------------------------
  // Outcomes of the remote calls, given as inputs

  /** What the cluster answers during one cycle. Each read is made at most
      once per cycle; writes are answered per object (by position in the
      rendered list) or per component. */
  datatype Cluster = Cluster(
    operatorConfig: ReadResult<ConfigMap>,
    network: ReadResult<Network>,
    ncpConfigMap: ReadResult<ConfigMap>,
    agentConfigMap: ReadResult<ConfigMap>,
    lbSecret: ReadResult<Secret>,
    ncpDeployment: ReadResult<Deployment>,
    ncpImageEnv: string,
    setReference: Obj -> Outcome,
    applyObject: (nat, Obj) -> Outcome,
    deletePods: string -> Outcome,
    toUnstructured: Outcome,
    applyNetworkStatus: Outcome)

  /** A Deployment the API server returns always has a container. */
  predicate WellFormed(cluster: Cluster)
  {
    cluster.ncpDeployment.Found? ==> |cluster.ncpDeployment.value.containers| > 0
  }

  // ---------------------------------------------------------------------
  // External collaborators whose internals are not part of this model

  /** The operator ConfigMap and the network spec after FillDefaults. */
  datatype Defaulted = Defaulted(instance: ConfigMap, spec: NetworkSpec)

  /** The ConfigMap GenerateOperatorConfigMap leaves behind, and its error. */
  datatype Generated = Generated(configMap: ConfigMap, outcome: Outcome)

  /** NeedApplyChange's verdict per managed workload. */
  datatype ChangeFlags = ChangeFlags(ncp: bool, agent: bool)

  datatype Collaborators = Collaborators(
    fillDefaults: (ConfigMap, NetworkSpec) -> Result<Defaulted>,
    validate: (ConfigMap, NetworkSpec) -> Outcome,
    generate: (ConfigMap, ConfigMap, Option<Secret>) -> Generated,
    needApplyChange: (ConfigMap, Option<ConfigMap>) -> Result<ChangeFlags>,
    render: ConfigMap -> Result<seq<Obj>>)

  // ---------------------------------------------------------------------
  // State kept between cycles

  /** The fields of the shared info this controller writes. */
  datatype SharedInfo = SharedInfo(
    operatorConfigMap: Option<ConfigMap>,
    networkConfig: Option<Network>,
    nodeAgentDsSpec: Option<Obj>,
    bootstrapDsSpec: Option<Obj>,
    deploymentSpec: Option<Obj>)

  /** The baseline (the package-level applied ConfigMap) and the shared info. */
  datatype EngineState = EngineState(baseline: Option<ConfigMap>, shared: SharedInfo)

  /** Everything one cycle produces. */
  datatype CycleOutcome = CycleOutcome(
    response: Response,
    updates: seq<StatusUpdate>,
    trace: seq<Action>,
    state: EngineState)
}
