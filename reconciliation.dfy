/**
 * One reconcile cycle of the ConfigMap controller as a function of the state
 * kept between cycles, the request, what the cluster answers and what the
 * external collaborators return. The stages follow the order of the
 * controller: request filter, the two source reads, defaulting and
 * validation, baseline rebuild, change detection and image drift, render,
 * shared-info capture, apply, pod eviction, baseline update, status write.
 */
module Reconciliation {
  import opened Types
  import opened StatusProjection
  import opened SharedCapture
  import opened ApplyObjects

  /** Only changes to the operator ConfigMap or to the cluster Network CRD start a cycle. */
  predicate IsWatched(req: Request)
  {
    (req.namespace == OperatorNamespace && req.name == ConfigMapName)
    || (req.namespace == "" && req.name == NetworkCRDName)
  }

  /** isNcpImageChanged: whether the NCP deployment must be re-rendered because
      its image differs from the configured one. A missing deployment counts
      as changed; any other read error is returned. */
  function IsNcpImageChanged(read: ReadResult<Deployment>, envImage: string): (r: Result<bool>)
    requires read.Found? ==> |read.value.containers| > 0
    ensures r.Failure? <==> read.ReadFailed?
    ensures r.Failure? ==> r.error == read.error
    ensures r == Success(false) <==> read.Found? && read.value.containers[0].image == envImage
  {
    match read
    case NotFound => Success(true)
    case ReadFailed(e) => Failure(e)
    case Found(deployment) => Success(deployment.containers[0].image != envImage)
  }

  /** The baseline after the first-run rebuild, and the generator's error. */
  datatype Rebuilt = Rebuilt(baseline: Option<ConfigMap>, outcome: Outcome)

  /** The baseline is rebuilt only while it is nil, and only when both derived
      ConfigMaps are read; the load-balancer secret may be missing. Read errors
      count as absence. A generator failure leaves the partly generated
      ConfigMap in place as the baseline. */
  function RebuildBaseline(baseline: Option<ConfigMap>, cluster: Cluster, collab: Collaborators): (r: Rebuilt)
    ensures baseline.Some? ==> r == Rebuilt(baseline, Pass)
    ensures r.baseline != baseline ==>
              baseline.None? && cluster.ncpConfigMap.Found? && cluster.agentConfigMap.Found?
    ensures baseline.None? && cluster.ncpConfigMap.Found? && cluster.agentConfigMap.Found? ==>
              var g := collab.generate(cluster.ncpConfigMap.value, cluster.agentConfigMap.value,
                                       Present(cluster.lbSecret));
              r == Rebuilt(Some(g.configMap), g.outcome)
    ensures r.outcome.Fail? ==> r.baseline.Some?
  {
    if baseline.None? && cluster.ncpConfigMap.Found? && cluster.agentConfigMap.Found? then
      var g := collab.generate(cluster.ncpConfigMap.value, cluster.agentConfigMap.value, Present(cluster.lbSecret));
      Rebuilt(Some(g.configMap), g.outcome)
    else
      Rebuilt(baseline, Pass)
  }

  function Fails(e: Error): Response
  {
    Response(false, Some(e))
  }

  /** The whole cycle. */
  function Cycle(st: EngineState, req: Request, cluster: Cluster, collab: Collaborators): CycleOutcome
    requires WellFormed(cluster)
  {
    if !IsWatched(req) then CycleOutcome(Done, [], [], st)
    else match cluster.operatorConfig
      case NotFound => CycleOutcome(Done, [SetDegraded(OperatorConfig, "NoOperatorConfig")], [], st)
      case ReadFailed(e) => CycleOutcome(Fails(e), [SetDegraded(OperatorConfig, "NoOperatorConfig")], [], st)
      case Found(instance) =>
        match cluster.network
        case NotFound => CycleOutcome(Done, [SetDegraded(ClusterConfig, "NoClusterConfig")], [], st)
        case ReadFailed(e) => CycleOutcome(Fails(e), [SetDegraded(ClusterConfig, "NoClusterConfig")], [], st)
        case Found(network) => Prepared(st, instance, network, cluster, collab)
  }

  /** Defaulting, validation and the baseline rebuild. */
  function Prepared(st: EngineState, instance: ConfigMap, network: Network,
                    cluster: Cluster, collab: Collaborators): CycleOutcome
    requires WellFormed(cluster)
  {
    match collab.fillDefaults(instance, network.spec)
    case Failure(e) => CycleOutcome(Fails(e), [SetDegraded(OperatorConfig, "FillDefaultsError")], [], st)
    case Success(d) =>
      match collab.validate(d.instance, d.spec)
      case Fail(e) => CycleOutcome(Fails(e), [SetDegraded(OperatorConfig, "InvalidOperatorConfig")], [], st)
      case Pass =>
        var rebuilt := RebuildBaseline(st.baseline, cluster, collab);
        var st' := st.(baseline := rebuilt.baseline);
        match rebuilt.outcome
        case Fail(e) => CycleOutcome(Fails(e), [SetDegraded(OperatorConfig, "InternalError")], [], st')
        case Pass => Decide(st', d.instance, network.(spec := d.spec), cluster, collab)
  }

  /** Change detection, and the image check that can end the cycle early. */
  function Decide(st: EngineState, instance: ConfigMap, network: Network,
                  cluster: Cluster, collab: Collaborators): CycleOutcome
    requires WellFormed(cluster)
  {
    match collab.needApplyChange(instance, st.baseline)
    case Failure(e) => CycleOutcome(Fails(e), [], [], st)
    case Success(flags) =>
      if !flags.ncp && !flags.agent then
        match IsNcpImageChanged(cluster.ncpDeployment, cluster.ncpImageEnv)
        case Failure(e) => CycleOutcome(Response(true, Some(e)), [], [], st)
        case Success(imageChanged) =>
          if !imageChanged then CycleOutcome(Done, AllClear, [], st)
          else RenderAndApply(st, instance, network, flags, cluster, collab)
      else RenderAndApply(st, instance, network, flags, cluster, collab)
  }

  /** Render, publish to the shared info, and apply. */
  function RenderAndApply(st: EngineState, instance: ConfigMap, network: Network, flags: ChangeFlags,
                          cluster: Cluster, collab: Collaborators): CycleOutcome
  {
    match collab.render(instance)
    case Failure(e) => CycleOutcome(Fails(e), [SetDegraded(OperatorConfig, "RenderConfigError")], [], st)
    case Success(objs) =>
      var st' := st.(shared := Capture(st.shared, objs).(networkConfig := Some(network)));
      var run := ApplyRunOf(objs, network, cluster);
      match run.failure
      case Some(f) => CycleOutcome(Fails(f.error), [SetDegraded(OperatorConfig, f.reason)], run.trace, st')
      case None => Evict(st', instance, network, flags, cluster, run.trace)
  }

  /** Whether the pods of a workload are deleted: only when a baseline exists
      and that workload's flag is set. */
  predicate MustEvict(baseline: Option<ConfigMap>, changed: bool)
  {
    baseline.Some? && changed
  }

  /** NCP pods first, then node-agent pods; then the baseline update. */
  function Evict(st: EngineState, instance: ConfigMap, network: Network, flags: ChangeFlags,
                 cluster: Cluster, trace: seq<Action>): CycleOutcome
  {
    var evictNcp := MustEvict(st.baseline, flags.ncp);
    var evictAgent := MustEvict(st.baseline, flags.agent);
    if evictNcp && cluster.deletePods(NsxNcpDeploymentName).Fail? then
      CycleOutcome(Fails(cluster.deletePods(NsxNcpDeploymentName).error),
           [SetDegraded(OperatorConfig, "DeleteOldPodsError")], trace, st)
    else
      var trace' := trace + (if evictNcp then [PodsDeleted(NsxNcpDeploymentName)] else []);
      if evictAgent && cluster.deletePods(NsxNodeAgentDsName).Fail? then
        CycleOutcome(Fails(cluster.deletePods(NsxNodeAgentDsName).error),
             [SetDegraded(OperatorConfig, "DeleteOldPodsError")], trace', st)
      else
        var trace'' := trace' + (if evictAgent then [PodsDeleted(NsxNodeAgentDsName)] else []);
        var st' := EngineState(Some(instance), st.shared.(operatorConfigMap := Some(instance)));
        Finish(st', network, cluster, trace'')
  }

  /** The Network status write. The shared info holds the same Network object,
      so it sees the new status whether or not the write succeeds. */
  function Finish(st: EngineState, network: Network, cluster: Cluster, trace: seq<Action>): CycleOutcome
  {
    var updated := network.(status := NetworkStatusOf(network.spec));
    var st' := st.(shared := st.shared.(networkConfig := Some(updated)));
    var outcome := if cluster.toUnstructured.Fail? then cluster.toUnstructured else cluster.applyNetworkStatus;
    match outcome
    case Fail(e) => CycleOutcome(Fails(e), [SetDegraded(ClusterConfig, "UpdateNetworkStatusError")], trace, st')
    case Pass => CycleOutcome(Done, AllClear, trace + [NetworkStatusApplied(updated)], st')
  }
}
