/**
 * The ConfigMap controller itself: an object holding the baseline (the last
 * applied operator ConfigMap) and the shared-info fields it publishes, and
 * the Reconcile method that updates them.
 */
module ConfigMapController {
  import opened Types
  import opened StatusProjection
  import opened SharedCapture
  import opened ApplyObjects
  import opened Reconciliation

  class ReconcileConfigMap {
    /** The last applied operator ConfigMap; nil until the first rebuild or
        successful cycle. */
    var baseline: Option<ConfigMap>
    // The shared-info fields this controller writes.
    var operatorConfigMap: Option<ConfigMap>
    var networkConfig: Option<Network>
    var nodeAgentDsSpec: Option<Obj>
    var bootstrapDsSpec: Option<Obj>
    var deploymentSpec: Option<Obj>

    function Shared(): SharedInfo
      reads this
    {
      SharedInfo(operatorConfigMap, networkConfig, nodeAgentDsSpec, bootstrapDsSpec, deploymentSpec)
    }

    function State(): EngineState
      reads this
    {
      EngineState(baseline, Shared())
    }

    /** A fresh controller: no baseline yet, and the shared info as given. */
    constructor (shared: SharedInfo)
      ensures State() == EngineState(None, shared)
    {
      baseline := None;
      operatorConfigMap := shared.operatorConfigMap;
      networkConfig := shared.networkConfig;
      nodeAgentDsSpec := shared.nodeAgentDsSpec;
      bootstrapDsSpec := shared.bootstrapDsSpec;
      deploymentSpec := shared.deploymentSpec;
    }

    /** updateSharedInfoWithNsxNcpResources: keeps a copy of each rendered
        object whose name is one of the three known ones. */
    method UpdateSharedInfoWithNsxNcpResources(objs: seq<Obj>)
      modifies this
      ensures baseline == old(baseline)
      ensures Shared() == Capture(old(Shared()), objs)
    {
      for i := 0 to |objs|
        invariant baseline == old(baseline)
        invariant Shared() == Capture(old(Shared()), objs[..i])
      {
        var obj := objs[i];
        if obj.name == NsxNodeAgentDsName {
          nodeAgentDsSpec := Some(obj);
        } else if obj.name == NsxNcpBootstrapDsName {
          bootstrapDsSpec := Some(obj);
        } else if obj.name == NsxNcpDeploymentName {
          deploymentSpec := Some(obj);
        }
        assert objs[..i + 1][..i] == objs[..i];
      }
      assert objs[..|objs|] == objs;
    }

    /** One reconcile cycle. Returns the response, the status-manager calls in
        order and the changes made to the cluster; the new baseline and shared
        info are those of the cycle's specification. */
    method Reconcile(req: Request, cluster: Cluster, collab: Collaborators)
      returns (response: Response, updates: seq<StatusUpdate>, trace: seq<Action>)
      requires WellFormed(cluster)
      modifies this
      ensures var out := Cycle(old(State()), req, cluster, collab);
              response == out.response && updates == out.updates && trace == out.trace
              && State() == out.state
    {
      response, updates, trace := Done, [], [];
      if !IsWatched(req) {
        return;
      }

      var instance: ConfigMap;
      match cluster.operatorConfig {
        case NotFound =>
          updates := [SetDegraded(OperatorConfig, "NoOperatorConfig")];
          return;
        case ReadFailed(e) =>
          updates := [SetDegraded(OperatorConfig, "NoOperatorConfig")];
          response := Fails(e);
          return;
        case Found(c) =>
          instance := c;
      }

      var network: Network;
      match cluster.network {
        case NotFound =>
          updates := [SetDegraded(ClusterConfig, "NoClusterConfig")];
          return;
        case ReadFailed(e) =>
          updates := [SetDegraded(ClusterConfig, "NoClusterConfig")];
          response := Fails(e);
          return;
        case Found(n) =>
          network := n;
      }

      response, updates, trace := Prepare(instance, network, cluster, collab);
    }

    /** Defaulting, validation and the first-run baseline rebuild. */
    method Prepare(instance: ConfigMap, network: Network, cluster: Cluster, collab: Collaborators)
      returns (response: Response, updates: seq<StatusUpdate>, trace: seq<Action>)
      requires WellFormed(cluster)
      modifies this
      ensures var out := Prepared(old(State()), instance, network, cluster, collab);
              response == out.response && updates == out.updates && trace == out.trace
              && State() == out.state
    {
      response, updates, trace := Done, [], [];
      var defaulted := collab.fillDefaults(instance, network.spec);
      if defaulted.Failure? {
        updates := [SetDegraded(OperatorConfig, "FillDefaultsError")];
        response := Fails(defaulted.error);
        return;
      }
      var filled := defaulted.value.instance;
      var network' := network.(spec := defaulted.value.spec);

      var valid := collab.validate(filled, network'.spec);
      if valid.Fail? {
        updates := [SetDegraded(OperatorConfig, "InvalidOperatorConfig")];
        response := Fails(valid.error);
        return;
      }

      if baseline.None? {
        var ncpConfigMap := Present(cluster.ncpConfigMap);
        var agentConfigMap := Present(cluster.agentConfigMap);
        var lbSecret := Present(cluster.lbSecret);
        if ncpConfigMap.Some? && agentConfigMap.Some? {
          var generated := collab.generate(ncpConfigMap.value, agentConfigMap.value, lbSecret);
          baseline := Some(generated.configMap);
          if generated.outcome.Fail? {
            updates := [SetDegraded(OperatorConfig, "InternalError")];
            response := Fails(generated.outcome.error);
            return;
          }
        }
      }

      response, updates, trace := DecideAndApply(filled, network', cluster, collab);
    }

    /** Change detection and the image check that can end the cycle early. */
    method DecideAndApply(instance: ConfigMap, network: Network, cluster: Cluster, collab: Collaborators)
      returns (response: Response, updates: seq<StatusUpdate>, trace: seq<Action>)
      requires WellFormed(cluster)
      modifies this
      ensures var out := Decide(old(State()), instance, network, cluster, collab);
              response == out.response && updates == out.updates && trace == out.trace
              && State() == out.state
    {
      response, updates, trace := Done, [], [];
      var change := collab.needApplyChange(instance, baseline);
      if change.Failure? {
        response := Fails(change.error);
        return;
      }
      var flags := change.value;

      if !flags.ncp && !flags.agent {
        var imageChanged := IsNcpImageChanged(cluster.ncpDeployment, cluster.ncpImageEnv);
        if imageChanged.Failure? {
          response := Response(true, Some(imageChanged.error));
          return;
        }
        if !imageChanged.value {
          updates := AllClear;
          return;
        }
      }

      response, updates, trace := RenderAndApplyObjects(instance, network, flags, cluster, collab);
    }

    /** Render, publish to the shared info, and apply every object in order,
        stopping at the first failure. */
    method RenderAndApplyObjects(instance: ConfigMap, network: Network, flags: ChangeFlags,
                                 cluster: Cluster, collab: Collaborators)
      returns (response: Response, updates: seq<StatusUpdate>, trace: seq<Action>)
      modifies this
      ensures var out := RenderAndApply(old(State()), instance, network, flags, cluster, collab);
              response == out.response && updates == out.updates && trace == out.trace
              && State() == out.state
    {
      response, updates, trace := Done, [], [];
      var rendered := collab.render(instance);
      if rendered.Failure? {
        updates := [SetDegraded(OperatorConfig, "RenderConfigError")];
        response := Fails(rendered.error);
        return;
      }
      var objs := rendered.value;

      UpdateSharedInfoWithNsxNcpResources(objs);
      networkConfig := Some(network);
      ghost var published := State();

      for i := 0 to |objs|
        invariant forall j :: 0 <= j < i ==> StepFailure(objs, j, network, cluster).None?
        invariant trace == AppliedActions(objs[..i], network)
        invariant State() == published
      {
        var obj := objs[i];
        var referenced := cluster.setReference(obj);
        if referenced.Fail? {
          updates := [SetDegraded(OperatorConfig, "ApplyObjectsError")];
          response := Fails(ReferenceError(obj.kind, obj.namespace, obj.name, referenced.error));
          assert StepFailure(objs, i, network, cluster).Some?;
          assert objs[..i] == objs[..FirstFailure(objs, 0, network, cluster)];
          return;
        }
        obj := WithController(obj, network);
        var applied := cluster.applyObject(i, obj);
        if applied.Fail? {
          updates := [SetDegraded(OperatorConfig, "ApplyOperatorConfig")];
          response := Fails(applied.error);
          assert StepFailure(objs, i, network, cluster).Some?;
          assert objs[..i] == objs[..FirstFailure(objs, 0, network, cluster)];
          return;
        }
        trace := trace + [Applied(obj)];
      }
      assert objs[..|objs|] == objs[..FirstFailure(objs, 0, network, cluster)];

      response, updates, trace := EvictAndRecord(instance, network, flags, cluster, trace);
    }

    /** Deletes the pods of the changed workloads (NCP first), then records the
        new baseline and writes the Network status. */
    method EvictAndRecord(instance: ConfigMap, network: Network, flags: ChangeFlags,
                          cluster: Cluster, applied: seq<Action>)
      returns (response: Response, updates: seq<StatusUpdate>, trace: seq<Action>)
      modifies this
      ensures var out := Evict(old(State()), instance, network, flags, cluster, applied);
              response == out.response && updates == out.updates && trace == out.trace
              && State() == out.state
    {
      response, updates, trace := Done, [], applied;
      if baseline.Some? && flags.ncp {
        var deleted := cluster.deletePods(NsxNcpDeploymentName);
        if deleted.Fail? {
          updates := [SetDegraded(OperatorConfig, "DeleteOldPodsError")];
          response := Fails(deleted.error);
          return;
        }
        trace := trace + [PodsDeleted(NsxNcpDeploymentName)];
      }
      if baseline.Some? && flags.agent {
        var deleted := cluster.deletePods(NsxNodeAgentDsName);
        if deleted.Fail? {
          updates := [SetDegraded(OperatorConfig, "DeleteOldPodsError")];
          response := Fails(deleted.error);
          return;
        }
        trace := trace + [PodsDeleted(NsxNodeAgentDsName)];
      }
      baseline := Some(instance);
      operatorConfigMap := baseline;

      var updated, written := UpdateNetworkStatus(network, cluster);
      networkConfig := Some(updated);
      if written.Fail? {
        updates := [SetDegraded(ClusterConfig, "UpdateNetworkStatusError")];
        response := Fails(written.error);
        return;
      }
      trace := trace + [NetworkStatusApplied(updated)];
      updates := AllClear;
    }
  }
}
