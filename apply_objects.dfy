/**
 * The apply loop of a reconcile cycle: every rendered object, in render
 * order, first gets a controller reference to the Network CRD and is then
 * applied; the first failure ends the loop.
 */
module ApplyObjects {
  import opened Types

  /** The object as SetControllerReference leaves it when it succeeds. */
  function WithController(obj: Obj, owner: Network): (owned: Obj)
    ensures owned.controller == Some(owner.name)
    ensures owned.(controller := obj.controller) == obj
  {
    obj.(controller := Some(owner.name))
  }

  /** Why the loop stopped: the degraded reason reported and the error returned. */
  datatype ApplyFailure = ApplyFailure(reason: string, error: Error)

  /** The failure, if any, of the step that handles the object at position i. */
  function StepFailure(objs: seq<Obj>, i: nat, owner: Network, cluster: Cluster): Option<ApplyFailure>
    requires i < |objs|
  {
    var obj := objs[i];
    match cluster.setReference(obj)
    case Fail(e) =>
      Some(ApplyFailure("ApplyObjectsError", ReferenceError(obj.kind, obj.namespace, obj.name, e)))
    case Pass =>
      match cluster.applyObject(i, WithController(obj, owner))
      case Fail(e) => Some(ApplyFailure("ApplyOperatorConfig", e))
      case Pass => None
  }

  /** The position of the first failing step at or after i (|objs| if none fails). */
  function FirstFailure(objs: seq<Obj>, i: nat, owner: Network, cluster: Cluster): (k: nat)
    requires i <= |objs|
    ensures i <= k <= |objs|
    ensures forall j :: i <= j < k ==> StepFailure(objs, j, owner, cluster).None?
    ensures k < |objs| ==> StepFailure(objs, k, owner, cluster).Some?
    decreases |objs| - i
  {
    if i == |objs| || StepFailure(objs, i, owner, cluster).Some? then i
    else FirstFailure(objs, i + 1, owner, cluster)
  }

  /** The actions recorded for objects applied with their controller reference. */
  function AppliedActions(objs: seq<Obj>, owner: Network): seq<Action>
  {
    seq(|objs|, j requires 0 <= j < |objs| => Applied(WithController(objs[j], owner)))
  }

  datatype ApplyRun = ApplyRun(trace: seq<Action>, failure: Option<ApplyFailure>)

  /** What the loop does: the objects before the first failing step are
      applied, in order and each with its controller reference; the failing
      step, if any, ends the run with its failure. */
  function ApplyRunOf(objs: seq<Obj>, owner: Network, cluster: Cluster): (run: ApplyRun)
    ensures |run.trace| <= |objs|
    ensures forall j :: 0 <= j < |run.trace| ==>
              run.trace[j] == Applied(WithController(objs[j], owner))
              && StepFailure(objs, j, owner, cluster).None?
    ensures run.failure.None? <==> forall j :: 0 <= j < |objs| ==> StepFailure(objs, j, owner, cluster).None?
    ensures run.failure.None? ==> |run.trace| == |objs|
    ensures run.failure.Some? ==> |run.trace| < |objs| && run.failure == StepFailure(objs, |run.trace|, owner, cluster)
  {
    var k := FirstFailure(objs, 0, owner, cluster);
    ApplyRun(AppliedActions(objs[..k], owner), if k < |objs| then StepFailure(objs, k, owner, cluster) else None)
  }
}
