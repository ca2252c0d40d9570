/**
 * What one reconcile cycle does, and what two cycles in a row do, stated
 * over the cycle's specification.
 */
module CycleProperties {
  import opened Types
  import opened StatusProjection
  import opened SharedCapture
  import opened ApplyObjects
  import opened Reconciliation

  // ---------------------------------------------------------------------
  // Views of the values the cycle computes on its way

  /** Both source objects are read and FillDefaults succeeds. */
  predicate Defaults(cluster: Cluster, collab: Collaborators)
  {
    cluster.operatorConfig.Found? && cluster.network.Found?
    && collab.fillDefaults(cluster.operatorConfig.value, cluster.network.value.spec).Success?
  }

  function DefaultedOf(cluster: Cluster, collab: Collaborators): Defaulted
    requires Defaults(cluster, collab)
  {
    collab.fillDefaults(cluster.operatorConfig.value, cluster.network.value.spec).value
  }

  /** The Network after defaulting: the spec FillDefaults left behind. */
  function NetworkOf(cluster: Cluster, collab: Collaborators): Network
    requires Defaults(cluster, collab)
  {
    cluster.network.value.(spec := DefaultedOf(cluster, collab).spec)
  }

  /** The request is watched, both sources are read, defaulting and validation pass. */
  predicate InputsReady(req: Request, cluster: Cluster, collab: Collaborators)
  {
    IsWatched(req) && Defaults(cluster, collab)
    && collab.validate(DefaultedOf(cluster, collab).instance, DefaultedOf(cluster, collab).spec).Pass?
  }

  function RebuiltOf(st: EngineState, cluster: Cluster, collab: Collaborators): Rebuilt
  {
    RebuildBaseline(st.baseline, cluster, collab)
  }

  /** NeedApplyChange's answer against the (possibly rebuilt) baseline. */
  function ChangeOf(st: EngineState, cluster: Cluster, collab: Collaborators): Result<ChangeFlags>
    requires Defaults(cluster, collab)
  {
    collab.needApplyChange(DefaultedOf(cluster, collab).instance, RebuiltOf(st, cluster, collab).baseline)
  }

  /** The cycle reaches the change decision. */
  predicate Decides(st: EngineState, req: Request, cluster: Cluster, collab: Collaborators)
  {
    InputsReady(req, cluster, collab) && RebuiltOf(st, cluster, collab).outcome.Pass?
    && ChangeOf(st, cluster, collab).Success?
  }

  /** The cycle goes on to render: a flag is set or the image drifted, and Render succeeds. */
  predicate Renders(st: EngineState, req: Request, cluster: Cluster, collab: Collaborators)
  {
    WellFormed(cluster) && Decides(st, req, cluster, collab)
    && (var flags := ChangeOf(st, cluster, collab).value;
        flags.ncp || flags.agent || IsNcpImageChanged(cluster.ncpDeployment, cluster.ncpImageEnv) == Success(true))
    && collab.render(DefaultedOf(cluster, collab).instance).Success?
  }

  function ObjsOf(st: EngineState, req: Request, cluster: Cluster, collab: Collaborators): seq<Obj>
    requires Renders(st, req, cluster, collab)
  {
    collab.render(DefaultedOf(cluster, collab).instance).value
  }

  function RunOf(st: EngineState, req: Request, cluster: Cluster, collab: Collaborators): ApplyRun
    requires Renders(st, req, cluster, collab)
  {
    ApplyRunOf(ObjsOf(st, req, cluster, collab), NetworkOf(cluster, collab), cluster)
  }

  /** Every rendered object is applied. */
  predicate AppliesAll(st: EngineState, req: Request, cluster: Cluster, collab: Collaborators)
  {
    Renders(st, req, cluster, collab) && RunOf(st, req, cluster, collab).failure.None?
  }

  /** Whether the cycle deletes the pods of each workload (when it gets there). */
  predicate EvictsNcp(st: EngineState, cluster: Cluster, collab: Collaborators)
    requires Defaults(cluster, collab)
  {
    ChangeOf(st, cluster, collab).Success?
    && MustEvict(RebuiltOf(st, cluster, collab).baseline, ChangeOf(st, cluster, collab).value.ncp)
  }

  predicate EvictsAgent(st: EngineState, cluster: Cluster, collab: Collaborators)
    requires Defaults(cluster, collab)
  {
    ChangeOf(st, cluster, collab).Success?
    && MustEvict(RebuiltOf(st, cluster, collab).baseline, ChangeOf(st, cluster, collab).value.agent)
  }

  /** The Network as the status write records it. */
  function StatusWritten(cluster: Cluster, collab: Collaborators): Network
    requires Defaults(cluster, collab)
  {
    var network := NetworkOf(cluster, collab);
    network.(status := NetworkStatusOf(network.spec))
  }

  // ---------------------------------------------------------------------
  // Request filter and missing sources

  /** A request for any other object changes nothing and reports nothing. */
  lemma IgnoresOtherRequests(st: EngineState, req: Request, cluster: Cluster, collab: Collaborators)
    requires WellFormed(cluster)
    requires !IsWatched(req)
    ensures Cycle(st, req, cluster, collab) == CycleOutcome(Done, [], [], st)
  {
  }

  /** A missing operator ConfigMap or Network degrades the matching concern and
      is not retried; any other read error degrades it and is returned. Nothing
      is applied or deleted and the state is untouched. */
  lemma MissingSourceObjects(st: EngineState, req: Request, cluster: Cluster, collab: Collaborators)
    requires WellFormed(cluster) && IsWatched(req)
    ensures var out := Cycle(st, req, cluster, collab);
      cluster.operatorConfig.NotFound? ==>
        out == CycleOutcome(Done, [SetDegraded(OperatorConfig, "NoOperatorConfig")], [], st)
    ensures var out := Cycle(st, req, cluster, collab);
      cluster.operatorConfig.ReadFailed? ==>
        out == CycleOutcome(Fails(cluster.operatorConfig.error), [SetDegraded(OperatorConfig, "NoOperatorConfig")], [], st)
    ensures var out := Cycle(st, req, cluster, collab);
      cluster.operatorConfig.Found? && cluster.network.NotFound? ==>
        out == CycleOutcome(Done, [SetDegraded(ClusterConfig, "NoClusterConfig")], [], st)
    ensures var out := Cycle(st, req, cluster, collab);
      cluster.operatorConfig.Found? && cluster.network.ReadFailed? ==>
        out == CycleOutcome(Fails(cluster.network.error), [SetDegraded(ClusterConfig, "NoClusterConfig")], [], st)
  {
  }

  /** A FillDefaults or Validate failure degrades the operator config and
      returns the error (so the request is requeued); the state is untouched. */
  lemma InvalidConfigIsRequeued(st: EngineState, req: Request, cluster: Cluster, collab: Collaborators)
    requires WellFormed(cluster) && IsWatched(req)
    requires cluster.operatorConfig.Found? && cluster.network.Found?
    ensures var out := Cycle(st, req, cluster, collab);
      var filled := collab.fillDefaults(cluster.operatorConfig.value, cluster.network.value.spec);
      filled.Failure? ==>
        out == CycleOutcome(Fails(filled.error), [SetDegraded(OperatorConfig, "FillDefaultsError")], [], st)
    ensures var out := Cycle(st, req, cluster, collab);
      Defaults(cluster, collab) && !InputsReady(req, cluster, collab) ==>
        var d := DefaultedOf(cluster, collab);
        out == CycleOutcome(Fails(collab.validate(d.instance, d.spec).error),
                            [SetDegraded(OperatorConfig, "InvalidOperatorConfig")], [], st)
  {
  }

  // ---------------------------------------------------------------------
  // Baseline rebuild

  /** When the generator fails, the cycle reports an internal error with the
      partly generated ConfigMap already in place as the baseline, and a retry
      with the same inputs does not rebuild it again: it compares against it. */
  lemma GeneratorFailureLeavesBaseline(st: EngineState, req: Request, cluster: Cluster, collab: Collaborators)
    requires WellFormed(cluster) && InputsReady(req, cluster, collab)
    requires RebuiltOf(st, cluster, collab).outcome.Fail?
    ensures var out := Cycle(st, req, cluster, collab);
      var g := collab.generate(cluster.ncpConfigMap.value, cluster.agentConfigMap.value, Present(cluster.lbSecret));
      st.baseline.None? && cluster.ncpConfigMap.Found? && cluster.agentConfigMap.Found?
      && out == CycleOutcome(Fails(g.outcome.error), [SetDegraded(OperatorConfig, "InternalError")], [],
                             st.(baseline := Some(g.configMap)))
    ensures var out := Cycle(st, req, cluster, collab);
      Cycle(out.state, req, cluster, collab)
        == Decide(out.state, DefaultedOf(cluster, collab).instance, NetworkOf(cluster, collab), cluster, collab)
  {
  }

  // ---------------------------------------------------------------------
  // Change detection and the early exit

  /** The cycle ends early (clearing both concerns, touching nothing) exactly
      when both change flags are false and the image has not drifted; the
      only state change it leaves is the rebuilt baseline. */
  lemma EarlyExitExactlyWithoutChange(st: EngineState, req: Request, cluster: Cluster, collab: Collaborators)
    requires WellFormed(cluster) && InputsReady(req, cluster, collab)
    ensures var out := Cycle(st, req, cluster, collab);
      (out.response == Done && out.updates == AllClear && out.trace == [])
      <==> (Decides(st, req, cluster, collab)
            && ChangeOf(st, cluster, collab).value == ChangeFlags(false, false)
            && IsNcpImageChanged(cluster.ncpDeployment, cluster.ncpImageEnv) == Success(false))
    ensures var out := Cycle(st, req, cluster, collab);
      out.response == Done && out.updates == AllClear && out.trace == [] ==>
        out.state == st.(baseline := RebuiltOf(st, cluster, collab).baseline)
  {
    var out := Cycle(st, req, cluster, collab);
    if Decides(st, req, cluster, collab) {
      var d := DefaultedOf(cluster, collab);
      var st' := st.(baseline := RebuiltOf(st, cluster, collab).baseline);
      assert out == Decide(st', d.instance, NetworkOf(cluster, collab), cluster, collab);
      var flags := ChangeOf(st, cluster, collab).value;
      var image := IsNcpImageChanged(cluster.ncpDeployment, cluster.ncpImageEnv);
      if (flags.ncp || flags.agent || image == Success(true))
         && collab.render(d.instance).Success? {
        FullRunLeavesTrace(st, req, cluster, collab);
      }
    }
  }

  /** A cycle that renders and gets past the apply loop records the status write last. */
  lemma FullRunLeavesTrace(st: EngineState, req: Request, cluster: Cluster, collab: Collaborators)
    requires Renders(st, req, cluster, collab)
    ensures var out := Cycle(st, req, cluster, collab);
      out.trace != [] || out.updates != AllClear
  {
    var d := DefaultedOf(cluster, collab);
    var st' := st.(baseline := RebuiltOf(st, cluster, collab).baseline);
    var flags := ChangeOf(st, cluster, collab).value;
    assert Cycle(st, req, cluster, collab)
        == RenderAndApply(st', d.instance, NetworkOf(cluster, collab), flags, cluster, collab);
  }

  /** An image check that cannot read the deployment asks for a requeue and
      returns the error, without touching the status. */
  lemma ImageReadErrorRequeues(st: EngineState, req: Request, cluster: Cluster, collab: Collaborators)
    requires WellFormed(cluster) && Decides(st, req, cluster, collab)
    requires ChangeOf(st, cluster, collab).value == ChangeFlags(false, false)
    requires cluster.ncpDeployment.ReadFailed?
    ensures Cycle(st, req, cluster, collab)
         == CycleOutcome(Response(true, Some(cluster.ncpDeployment.error)), [], [],
                         st.(baseline := RebuiltOf(st, cluster, collab).baseline))
  {
  }

  // ---------------------------------------------------------------------
  // Render, publication and the apply loop

  /** A cycle that does not render changes nothing in the cluster and leaves
      the shared info as it was; only the baseline may have been rebuilt. */
  lemma NothingWithoutRender(st: EngineState, req: Request, cluster: Cluster, collab: Collaborators)
    requires WellFormed(cluster)
    requires !Renders(st, req, cluster, collab)
    ensures Cycle(st, req, cluster, collab).trace == []
    ensures Cycle(st, req, cluster, collab).state.shared == st.shared
  {
    if Decides(st, req, cluster, collab) {
      var d := DefaultedOf(cluster, collab);
      var st' := st.(baseline := RebuiltOf(st, cluster, collab).baseline);
      assert Cycle(st, req, cluster, collab) == Decide(st', d.instance, NetworkOf(cluster, collab), cluster, collab);
    }
  }

  /** The shared specs change only in a cycle that renders, and then each
      takes the last rendered object of its name, whatever happens later in
      the cycle. */
  lemma SharedSpecsFollowRender(st: EngineState, req: Request, cluster: Cluster, collab: Collaborators, slot: Slot)
    requires WellFormed(cluster)
    ensures var out := Cycle(st, req, cluster, collab);
      !Renders(st, req, cluster, collab) ==> SlotValue(out.state.shared, slot) == SlotValue(st.shared, slot)
    ensures var out := Cycle(st, req, cluster, collab);
      Renders(st, req, cluster, collab) ==>
        SlotValue(out.state.shared, slot) == SlotValue(Capture(st.shared, ObjsOf(st, req, cluster, collab)), slot)
  {
    if Renders(st, req, cluster, collab) {
      var d := DefaultedOf(cluster, collab);
      var st' := st.(baseline := RebuiltOf(st, cluster, collab).baseline);
      var flags := ChangeOf(st, cluster, collab).value;
      var objs := ObjsOf(st, req, cluster, collab);
      var network := NetworkOf(cluster, collab);
      var st'' := st'.(shared := Capture(st'.shared, objs).(networkConfig := Some(network)));
      var run := RunOf(st, req, cluster, collab);
      assert Cycle(st, req, cluster, collab) == RenderAndApply(st', d.instance, network, flags, cluster, collab);
      if run.failure.None? {
        assert Cycle(st, req, cluster, collab) == Evict(st'', d.instance, network, flags, cluster, run.trace);
      }
    } else {
      NothingWithoutRender(st, req, cluster, collab);
    }
  }

  /** A failing step of the apply loop ends the cycle: the operator config is
      degraded with the step's reason, its error is returned, the objects
      before it stay applied, no pods are deleted and the baseline is not
      replaced. */
  lemma ApplyFailureStopsCycle(st: EngineState, req: Request, cluster: Cluster, collab: Collaborators)
    requires Renders(st, req, cluster, collab)
    requires RunOf(st, req, cluster, collab).failure.Some?
    ensures var out := Cycle(st, req, cluster, collab);
      var run := RunOf(st, req, cluster, collab);
      out.response == Fails(run.failure.value.error)
      && out.updates == [SetDegraded(OperatorConfig, run.failure.value.reason)]
      && out.trace == run.trace
      && out.state.baseline == RebuiltOf(st, cluster, collab).baseline
  {
    var d := DefaultedOf(cluster, collab);
    var st' := st.(baseline := RebuiltOf(st, cluster, collab).baseline);
    var flags := ChangeOf(st, cluster, collab).value;
    assert Cycle(st, req, cluster, collab)
        == RenderAndApply(st', d.instance, NetworkOf(cluster, collab), flags, cluster, collab);
  }

  // ---------------------------------------------------------------------
  // Pod eviction and the baseline update

  /** The full trace of a cycle that applies every object: the applied objects,
      then the NCP and node-agent deletions that are due, then the status write;
      a failing deletion ends the trace and the cycle. */
  lemma EvictionPhase(st: EngineState, req: Request, cluster: Cluster, collab: Collaborators)
    requires AppliesAll(st, req, cluster, collab)
    ensures var out := Cycle(st, req, cluster, collab);
      var applied := RunOf(st, req, cluster, collab).trace;
      var ncp := EvictsNcp(st, cluster, collab);
      var agent := EvictsAgent(st, cluster, collab);
      var ncpDeleted := if ncp then [PodsDeleted(NsxNcpDeploymentName)] else [];
      var agentDeleted := if agent then [PodsDeleted(NsxNodeAgentDsName)] else [];
      if ncp && cluster.deletePods(NsxNcpDeploymentName).Fail? then
        out.response == Fails(cluster.deletePods(NsxNcpDeploymentName).error)
        && out.updates == [SetDegraded(OperatorConfig, "DeleteOldPodsError")]
        && out.trace == applied
        && out.state.baseline == RebuiltOf(st, cluster, collab).baseline
      else if agent && cluster.deletePods(NsxNodeAgentDsName).Fail? then
        out.response == Fails(cluster.deletePods(NsxNodeAgentDsName).error)
        && out.updates == [SetDegraded(OperatorConfig, "DeleteOldPodsError")]
        && out.trace == applied + ncpDeleted
        && out.state.baseline == RebuiltOf(st, cluster, collab).baseline
      else
        out.state.baseline == Some(DefaultedOf(cluster, collab).instance)
        && out.state.shared.operatorConfigMap == Some(DefaultedOf(cluster, collab).instance)
        && out.trace == applied + ncpDeleted + agentDeleted
                        + (if out.response == Done then [NetworkStatusApplied(StatusWritten(cluster, collab))] else [])
  {
    var d := DefaultedOf(cluster, collab);
    var st' := st.(baseline := RebuiltOf(st, cluster, collab).baseline);
    var flags := ChangeOf(st, cluster, collab).value;
    var objs := ObjsOf(st, req, cluster, collab);
    var network := NetworkOf(cluster, collab);
    var st'' := st'.(shared := Capture(st'.shared, objs).(networkConfig := Some(network)));
    assert Cycle(st, req, cluster, collab)
        == Evict(st'', d.instance, network, flags, cluster, RunOf(st, req, cluster, collab).trace);
  }

  /** Once the due deletions succeed, the status write decides only the
      response: the baseline is the new configuration either way. */
  lemma StatusWriteAfterBaseline(st: EngineState, req: Request, cluster: Cluster, collab: Collaborators)
    requires AppliesAll(st, req, cluster, collab)
    requires EvictsNcp(st, cluster, collab) ==> cluster.deletePods(NsxNcpDeploymentName).Pass?
    requires EvictsAgent(st, cluster, collab) ==> cluster.deletePods(NsxNodeAgentDsName).Pass?
    ensures var out := Cycle(st, req, cluster, collab);
      var updated := StatusWritten(cluster, collab);
      out.state.baseline == Some(DefaultedOf(cluster, collab).instance)
      && out.state.shared.networkConfig == Some(updated)
      && (out.response == Done <==> cluster.toUnstructured.Pass? && cluster.applyNetworkStatus.Pass?)
      && (out.response == Done ==> out.updates == AllClear && out.trace[|out.trace| - 1] == NetworkStatusApplied(updated))
      && (out.response != Done ==> out.updates == [SetDegraded(ClusterConfig, "UpdateNetworkStatusError")])
  {
    EvictionPhase(st, req, cluster, collab);
    var d := DefaultedOf(cluster, collab);
    var st' := st.(baseline := RebuiltOf(st, cluster, collab).baseline);
    var flags := ChangeOf(st, cluster, collab).value;
    var objs := ObjsOf(st, req, cluster, collab);
    var network := NetworkOf(cluster, collab);
    var st'' := st'.(shared := Capture(st'.shared, objs).(networkConfig := Some(network)));
    assert Cycle(st, req, cluster, collab)
        == Evict(st'', d.instance, network, flags, cluster, RunOf(st, req, cluster, collab).trace);
  }

  /** Pods of a workload are deleted only when a baseline exists, that
      workload's flag is set and every object was applied; NCP pods go first. */
  lemma EvictionIsGated(st: EngineState, req: Request, cluster: Cluster, collab: Collaborators)
    requires WellFormed(cluster)
    ensures var out := Cycle(st, req, cluster, collab);
      PodsDeleted(NsxNcpDeploymentName) in out.trace ==>
        AppliesAll(st, req, cluster, collab) && EvictsNcp(st, cluster, collab)
    ensures var out := Cycle(st, req, cluster, collab);
      PodsDeleted(NsxNodeAgentDsName) in out.trace ==>
        AppliesAll(st, req, cluster, collab) && EvictsAgent(st, cluster, collab)
        && (EvictsNcp(st, cluster, collab) ==> cluster.deletePods(NsxNcpDeploymentName).Pass?)
    ensures var out := Cycle(st, req, cluster, collab);
      forall i, j :: 0 <= i < |out.trace| && 0 <= j < |out.trace|
                     && out.trace[i] == PodsDeleted(NsxNcpDeploymentName)
                     && out.trace[j] == PodsDeleted(NsxNodeAgentDsName)
                     ==> i < j
  {
    var out := Cycle(st, req, cluster, collab);
    if AppliesAll(st, req, cluster, collab) {
      EvictionPhase(st, req, cluster, collab);
      var applied := RunOf(st, req, cluster, collab).trace;
      assert forall k :: 0 <= k < |applied| ==> applied[k].Applied?;
    } else if Renders(st, req, cluster, collab) {
      ApplyFailureStopsCycle(st, req, cluster, collab);
    } else {
      NothingWithoutRender(st, req, cluster, collab);
    }
  }

  /** An image-only change re-renders and re-applies but deletes no pods:
      both flags are false. */
  lemma ImageOnlyChangeEvictsNothing(st: EngineState, req: Request, cluster: Cluster, collab: Collaborators)
    requires WellFormed(cluster) && Decides(st, req, cluster, collab)
    requires ChangeOf(st, cluster, collab).value == ChangeFlags(false, false)
    ensures forall a :: a in Cycle(st, req, cluster, collab).trace ==> !a.PodsDeleted?
  {
    var out := Cycle(st, req, cluster, collab);
    if AppliesAll(st, req, cluster, collab) {
      EvictionPhase(st, req, cluster, collab);
      StatusWriteAfterBaseline(st, req, cluster, collab);
      forall a | a in out.trace ensures !a.PodsDeleted? {
        var applied := RunOf(st, req, cluster, collab).trace;
        var i :| 0 <= i < |out.trace| && out.trace[i] == a;
        if i < |applied| {
          assert out.trace[..|applied|] == applied;
          assert a == applied[i];
        }
      }
    } else if Renders(st, req, cluster, collab) {
      ApplyFailureStopsCycle(st, req, cluster, collab);
    }
  }

  /** A cold start with no derived ConfigMaps deployed keeps the baseline nil,
      so when NeedApplyChange reports both workloads changed against no
      baseline, the cycle renders (if Render succeeds) and deletes no pods. */
  lemma ColdStartEvictsNothing(st: EngineState, req: Request, cluster: Cluster, collab: Collaborators)
    requires WellFormed(cluster) && InputsReady(req, cluster, collab)
    requires st.baseline.None? && !(cluster.ncpConfigMap.Found? && cluster.agentConfigMap.Found?)
    requires collab.needApplyChange(DefaultedOf(cluster, collab).instance, None) == Success(ChangeFlags(true, true))
    ensures Renders(st, req, cluster, collab) <==> collab.render(DefaultedOf(cluster, collab).instance).Success?
    ensures !EvictsNcp(st, cluster, collab) && !EvictsAgent(st, cluster, collab)
    ensures PodsDeleted(NsxNcpDeploymentName) !in Cycle(st, req, cluster, collab).trace
    ensures PodsDeleted(NsxNodeAgentDsName) !in Cycle(st, req, cluster, collab).trace
  {
    EvictionIsGated(st, req, cluster, collab);
  }

  // ---------------------------------------------------------------------
  // Two cycles in a row

  /** Two outcomes that agree on everything but the new state. */
  predicate SameOutputs(a: CycleOutcome, b: CycleOutcome)
  {
    a.response == b.response && a.updates == b.updates && a.trace == b.trace
  }

  lemma EvictOutputs(st1: EngineState, st2: EngineState, instance: ConfigMap, network: Network,
                                        flags: ChangeFlags, cluster: Cluster, trace: seq<Action>)
    requires st1.baseline == st2.baseline
    ensures SameOutputs(Evict(st1, instance, network, flags, cluster, trace),
                        Evict(st2, instance, network, flags, cluster, trace))
  {
  }

  lemma DecideOutputs(st1: EngineState, st2: EngineState, instance: ConfigMap, network: Network,
                                         cluster: Cluster, collab: Collaborators)
    requires WellFormed(cluster)
    requires st1.baseline == st2.baseline
    ensures SameOutputs(Decide(st1, instance, network, cluster, collab), Decide(st2, instance, network, cluster, collab))
  {
    match collab.needApplyChange(instance, st1.baseline)
    case Failure(_) =>
    case Success(flags) =>
      match collab.render(instance)
      case Failure(_) =>
      case Success(objs) =>
        var run := ApplyRunOf(objs, network, cluster);
        if run.failure.None? {
          var st1' := st1.(shared := Capture(st1.shared, objs).(networkConfig := Some(network)));
          var st2' := st2.(shared := Capture(st2.shared, objs).(networkConfig := Some(network)));
          EvictOutputs(st1', st2', instance, network, flags, cluster, run.trace);
        }
  }

  /** The cycle's response, status updates and trace depend on the state it
      starts from only through its rebuild result: the rebuilt baseline and
      the generator's outcome. */
  lemma OutputsDependOnlyOnBaseline(st1: EngineState, st2: EngineState, req: Request,
                                    cluster: Cluster, collab: Collaborators)
    requires WellFormed(cluster)
    requires RebuiltOf(st1, cluster, collab) == RebuiltOf(st2, cluster, collab)
    ensures SameOutputs(Cycle(st1, req, cluster, collab), Cycle(st2, req, cluster, collab))
  {
    if InputsReady(req, cluster, collab) && RebuiltOf(st1, cluster, collab).outcome.Pass? {
      var d := DefaultedOf(cluster, collab);
      var b := RebuiltOf(st1, cluster, collab).baseline;
      DecideOutputs(st1.(baseline := b), st2.(baseline := b), d.instance, NetworkOf(cluster, collab), cluster, collab);
    }
  }

  /** A cycle whose pod deletion fails does not replace the baseline, so a
      retry with the same inputs repeats it: the same objects are applied again
      and the NCP pods, if they were deleted, are deleted again. */
  lemma RetryAfterEvictionFailureRepeats(st: EngineState, req: Request, cluster: Cluster, collab: Collaborators)
    requires WellFormed(cluster)
    requires Cycle(st, req, cluster, collab).updates == [SetDegraded(OperatorConfig, "DeleteOldPodsError")]
    ensures var out := Cycle(st, req, cluster, collab);
      var again := Cycle(out.state, req, cluster, collab);
      again.response == out.response && again.updates == out.updates && again.trace == out.trace
  {
    var out := Cycle(st, req, cluster, collab);
    assert AppliesAll(st, req, cluster, collab);
    EvictionPhase(st, req, cluster, collab);
    assert RebuiltOf(out.state, cluster, collab) == RebuiltOf(st, cluster, collab);
    OutputsDependOnlyOnBaseline(out.state, st, req, cluster, collab);
  }

  /** NeedApplyChange reports no change when a configuration is compared
      against itself. */
  ghost predicate NoChangeAgainstItself(collab: Collaborators)
  {
    forall c :: collab.needApplyChange(c, Some(c)) == Success(ChangeFlags(false, false))
  }

  /** The two clusters answer the source reads alike. */
  predicate SameSources(a: Cluster, b: Cluster)
  {
    a.operatorConfig == b.operatorConfig && a.network == b.network
    && a.ncpConfigMap == b.ncpConfigMap && a.agentConfigMap == b.agentConfigMap && a.lbSecret == b.lbSecret
  }

  /** After a cycle that returns no error, a second cycle on the same sources,
      against a deployment already running the configured image, changes
      nothing in the cluster (provided NeedApplyChange sees no change between
      a configuration and itself). */
  lemma SecondCycleChangesNothing(st: EngineState, req: Request, cluster: Cluster, cluster2: Cluster,
                                  collab: Collaborators)
    requires WellFormed(cluster) && WellFormed(cluster2) && SameSources(cluster, cluster2)
    requires IsNcpImageChanged(cluster2.ncpDeployment, cluster2.ncpImageEnv) == Success(false)
    requires NoChangeAgainstItself(collab)
    requires Cycle(st, req, cluster, collab).response == Done
    ensures Cycle(Cycle(st, req, cluster, collab).state, req, cluster2, collab).trace == []
  {
    var out := Cycle(st, req, cluster, collab);
    if InputsReady(req, cluster, collab) {
      var d := DefaultedOf(cluster, collab);
      assert InputsReady(req, cluster2, collab) && DefaultedOf(cluster2, collab) == d;
      if AppliesAll(st, req, cluster, collab) {
        StatusWriteAfterBaseline(st, req, cluster, collab);
        assert out.state.baseline == Some(d.instance);
        assert ChangeOf(out.state, cluster2, collab) == Success(ChangeFlags(false, false));
        EarlyExitExactlyWithoutChange(out.state, req, cluster2, collab);
      } else {
        EarlyExitExactlyWithoutChange(st, req, cluster, collab);
        if Renders(st, req, cluster, collab) {
          ApplyFailureStopsCycle(st, req, cluster, collab);
        }
        assert out.state.baseline == RebuiltOf(st, cluster, collab).baseline;
        assert RebuiltOf(out.state, cluster2, collab) == RebuiltOf(st, cluster, collab);
        EarlyExitExactlyWithoutChange(out.state, req, cluster2, collab);
      }
    }
  }

  /** A failed Network status write comes after the baseline update, so the
      retry sees no change: it takes the early exit, clears both concerns and
      does not write the status again (provided NeedApplyChange sees no change
      between a configuration and itself and the image has not drifted). */
  lemma StatusWriteFailureRetryExitsEarly(st: EngineState, req: Request, cluster: Cluster, collab: Collaborators)
    requires AppliesAll(st, req, cluster, collab)
    requires EvictsNcp(st, cluster, collab) ==> cluster.deletePods(NsxNcpDeploymentName).Pass?
    requires EvictsAgent(st, cluster, collab) ==> cluster.deletePods(NsxNodeAgentDsName).Pass?
    requires cluster.toUnstructured.Fail? || cluster.applyNetworkStatus.Fail?
    requires NoChangeAgainstItself(collab)
    requires IsNcpImageChanged(cluster.ncpDeployment, cluster.ncpImageEnv) == Success(false)
    ensures var out := Cycle(st, req, cluster, collab);
      out.updates == [SetDegraded(ClusterConfig, "UpdateNetworkStatusError")]
    ensures var out := Cycle(st, req, cluster, collab);
      var again := Cycle(out.state, req, cluster, collab);
      again.response == Done && again.updates == AllClear && again.trace == []
      && again.state == out.state
  {
    var out := Cycle(st, req, cluster, collab);
    var d := DefaultedOf(cluster, collab);
    StatusWriteAfterBaseline(st, req, cluster, collab);
    assert out.state.baseline == Some(d.instance);
    assert RebuiltOf(out.state, cluster, collab).baseline == out.state.baseline;
    assert ChangeOf(out.state, cluster, collab) == Success(ChangeFlags(false, false));
    EarlyExitExactlyWithoutChange(out.state, req, cluster, collab);
  }
}
