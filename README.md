# ConfigMap controller of the NSX container plugin operator, in Dafny

This project models the reconcile loop of the operator's ConfigMap controller
(`pkg/controller/configmap/configmap_controller.go`). The controller watches every
ConfigMap and every Network, and its reconcile loop ignores all requests except those
for the operator ConfigMap and the cluster Network CRD. For those it does the following:

- it reads both objects and fills in and validates the configuration;
- on first run it rebuilds its baseline (the last applied operator ConfigMap)
  from the derived NCP and node-agent ConfigMaps;
- it asks which workloads changed; only when neither did, it checks whether the
  NCP image drifted, and without drift it stops there;
- it renders the manifests, publishes three of them to the shared info and
  applies them in order, each with a controller reference to the Network;
- it deletes the pods of the changed workloads, records the new baseline and
  writes the Network status.

Remote reads and writes are not executed. Their outcomes are inputs (`Types.Cluster`):

- each read is found, not found, or failed with an error;
- each write passes or fails.

The collaborators defined outside this file (`FillDefaults`, `Validate`,
`GenerateOperatorConfigMap`, `NeedApplyChange`, `Render`) are function-valued
inputs (`Types.Collaborators`). Nothing is assumed about how they compute.

Layout:

- `types.dfy`: the data model, the outcome and collaborator inputs, and the
  state kept between cycles.
- `status_projection.dfy`: `getNetworkCRD` (the spec-to-status projection)
  and `updateNetworkStatus`.
- `shared_capture.dfy`: `updateSharedInfoWithNsxNcpResources` as a
  specification, with the last-match lemmas.
- `apply_objects.dfy`: the apply loop's specification. The first failing step
  ends the loop.
- `reconciliation.dfy`: `Cycle`, one whole cycle as a pure function, split into
  the same stages as the code. It also holds `isNcpImageChanged` and the
  baseline rebuild.
- `controller.dfy`: the class `ReconcileConfigMap`. Its fields are the baseline
  (the package-level `appliedConfigMap`) and the shared-info fields the
  controller writes. Its `Reconcile` method runs the cycle imperatively: early
  returns, the apply loop, field updates. It is proved to return exactly what
  `Cycle` specifies and to leave the state `Cycle` specifies.
- `cycle_properties.dfy`: what a cycle, and two cycles in a row, guarantee.

Where the behaviour one might expect differs from the code, the model follows the code:

- A `FillDefaults` or `Validate` failure returns the error, so the request is
  requeued.
- A failure deleting the NCP pods returns at once. The node-agent pods are
  not touched.
- An image-only change (both change flags false, image drifted) re-renders
  and re-applies but deletes no pods.
- A failed pod deletion leaves the baseline unchanged. A retry with the same
  inputs therefore repeats the whole cycle, including deleting NCP pods that
  were already deleted.
- A `GenerateOperatorConfigMap` failure leaves the partly generated ConfigMap
  as the baseline. Later cycles compare against it and do not rebuild it.
- A shared spec whose name is absent from a render keeps its previous value.
  The three shared specs can therefore come from different cycles.
- A `NeedApplyChange` error is returned without any status update.
- The shared info holds the same Network object the cycle writes the status
  into. It sees the new status even when the status write fails.
- A failed Network status write comes after the baseline update. The requeued
  retry therefore sees no change, takes the early exit, clears both concerns and
  never writes the Network status again.

## Model

| member | source | states |
|---|---|---|
| `Types.Present` | pkg/controller/configmap/configmap_controller.go:164-187 | a read of a derived ConfigMap or the LB secret yields an object exactly when it is found; read errors count as absence |
| `Reconciliation.IsWatched` | pkg/controller/configmap/configmap_controller.go:99-106 | no contract of its own: the request filter (operator ConfigMap in the operator namespace, or the cluster-scoped Network named "cluster"); `CycleProperties.IgnoresOtherRequests` states what a request it rejects does |
| `Reconciliation.Cycle` | pkg/controller/configmap/configmap_controller.go:96-285 | no contract of its own: one whole cycle as a function of the kept state, the request, the cluster answers and the collaborators; `ReconcileConfigMap.Reconcile` is proved equal to it and every `CycleProperties` lemma states a property of it |
| `Reconciliation.Prepared` | pkg/controller/configmap/configmap_controller.go:148-198 | no contract of its own: defaulting, validation and the first-run rebuild; its exits are stated by `CycleProperties.InvalidConfigIsRequeued` and `GeneratorFailureLeavesBaseline`, and `ReconcileConfigMap.Prepare` is proved equal to it |
| `Reconciliation.Decide` | pkg/controller/configmap/configmap_controller.go:199-219 | no contract of its own: change detection and the image check; `CycleProperties.EarlyExitExactlyWithoutChange` and `ImageReadErrorRequeues` state its exits, and `ReconcileConfigMap.DecideAndApply` is proved equal to it |
| `Reconciliation.RenderAndApply` | pkg/controller/configmap/configmap_controller.go:221-250 | no contract of its own: render, shared-info capture and the apply loop; `CycleProperties.SharedSpecsFollowRender` and `ApplyFailureStopsCycle` state its outcomes, and `ReconcileConfigMap.RenderAndApplyObjects` is proved equal to it |
| `Reconciliation.MustEvict` | pkg/controller/configmap/configmap_controller.go:253-262 | no contract of its own: a workload's pods are deleted only with a baseline present and that workload's flag set; `CycleProperties.EvictionIsGated`, `ImageOnlyChangeEvictsNothing` and `ColdStartEvictsNothing` state the consequences |
| `Reconciliation.Evict` | pkg/controller/configmap/configmap_controller.go:252-272 | no contract of its own: NCP then node-agent pod deletion and the baseline update; `CycleProperties.EvictionPhase` states its trace and state on every branch, and `ReconcileConfigMap.EvictAndRecord` is proved equal to it |
| `Reconciliation.Finish` | pkg/controller/configmap/configmap_controller.go:274-284 | no contract of its own: the Network status write; `CycleProperties.StatusWriteAfterBaseline` states that its outcome alone decides success or "UpdateNetworkStatusError" |
| `Reconciliation.IsNcpImageChanged` | pkg/controller/configmap/configmap_controller.go:356-372 | errors exactly on a read error other than not-found, returning that error; reports "unchanged" exactly when the deployment exists and its first container runs the configured image (a missing deployment counts as changed) |
| `Reconciliation.RebuildBaseline` | pkg/controller/configmap/configmap_controller.go:162-198 | a non-nil baseline is kept as is; the baseline changes only when it was nil and both derived ConfigMaps were read, and then it becomes the generator's ConfigMap (the LB secret may be absent); a generator failure leaves the baseline non-nil |
| `StatusProjection.CidrsOnly` | pkg/controller/configmap/configmap_controller.go:319-324 | no contract of its own: the cluster network entries reduced to their CIDRs; the ensures of `NetworkStatusOf` state its length and each entry |
| `StatusProjection.NetworkStatusOf` | pkg/controller/configmap/configmap_controller.go:311-327 | service networks copied unchanged and in order; cluster network entries one-to-one and in order with only the CIDR kept (host prefix zero); network type copied |
| `StatusProjection.StatusDropsHostPrefix` | pkg/controller/configmap/configmap_controller.go:312-324 | every cluster network entry of the status has host prefix zero and the CIDR of some spec entry |
| `StatusProjection.StatusIgnoresHostPrefix` | pkg/controller/configmap/configmap_controller.go:319-324 | specs that differ only in host prefixes give the same status |
| `StatusProjection.GetNetworkCRD` | pkg/controller/configmap/configmap_controller.go:311-327 | the two append loops build exactly the projected status |
| `StatusProjection.UpdateNetworkStatus` | pkg/controller/configmap/configmap_controller.go:287-309 | the Network gets the projected status and keeps its spec; the result is an error exactly when the conversion or the apply fails, the conversion's error first |
| `SharedCapture.CaptureObject` | pkg/controller/configmap/configmap_controller.go:345-350 | no contract of its own: one iteration of the if/else-if chain on the object name; `SharedCapture.CaptureObjectSlot` states which slot it writes |
| `SharedCapture.Capture` | pkg/controller/configmap/configmap_controller.go:343-352 | no contract of its own: the whole loop in render order; `CaptureKeepsLastMatch`, `CaptureKeepsUnnamedSlot` and `CaptureKeepsOtherFields` state what it leaves in each field, and `ReconcileConfigMap.UpdateSharedInfoWithNsxNcpResources` is proved equal to it |
| `SharedCapture.CaptureObjectSlot` | pkg/controller/configmap/configmap_controller.go:345-350 | an object writes a copy of itself into a slot exactly when it bears that slot's name, and leaves every other slot as it was |
| `SharedCapture.CaptureKeepsLastMatch` | pkg/controller/configmap/configmap_controller.go:343-354 | after the loop each of the three shared specs is a copy of the last rendered object with its name |
| `SharedCapture.CaptureKeepsUnnamedSlot` | pkg/controller/configmap/configmap_controller.go:343-354 | a shared spec whose name no rendered object bears keeps its previous value |
| `SharedCapture.CaptureKeepsOtherFields` | pkg/controller/configmap/configmap_controller.go:343-354 | the loop touches neither the shared operator ConfigMap nor the shared Network |
| `ApplyObjects.WithController` | pkg/controller/configmap/configmap_controller.go:235-236 | the object as a successful `SetControllerReference` leaves it: its controller is the Network's name and nothing else of it changes |
| `ApplyObjects.StepFailure` | pkg/controller/configmap/configmap_controller.go:234-249 | no contract of its own: one loop step, a failing reference giving "ApplyObjectsError" with the wrapped error and otherwise a failing apply giving "ApplyOperatorConfig"; `FirstFailure` and `ApplyRunOf` are stated in terms of it |
| `ApplyObjects.FirstFailure` | pkg/controller/configmap/configmap_controller.go:234-250 | the first position whose reference-or-apply step fails: every earlier step passes, and the step there fails unless it is the end |
| `ApplyObjects.ApplyRunOf` | pkg/controller/configmap/configmap_controller.go:234-250 | the applied objects are the rendered ones in order, each with its controller reference set, up to the first failing step; the run fails exactly when some step fails, and with that step's failure |
| `ConfigMapController.ReconcileConfigMap.constructor` | pkg/controller/configmap/configmap_controller.go:37 | a new controller starts with a nil baseline |
| `ConfigMapController.ReconcileConfigMap.UpdateSharedInfoWithNsxNcpResources` | pkg/controller/configmap/configmap_controller.go:343-354 | the shared specs after the loop are the capture of the rendered objects, and the baseline is untouched |
| `ConfigMapController.ReconcileConfigMap.Reconcile` | pkg/controller/configmap/configmap_controller.go:96-285 | response, status updates, trace and new state (baseline and shared info) are exactly those of `Cycle` on the old state |
| `ConfigMapController.ReconcileConfigMap.Prepare` | pkg/controller/configmap/configmap_controller.go:148-198 | defaulting, validation and the rebuild produce exactly the `Prepared` stage of the cycle |
| `ConfigMapController.ReconcileConfigMap.DecideAndApply` | pkg/controller/configmap/configmap_controller.go:199-219 | change detection and the image check produce exactly the `Decide` stage of the cycle |
| `ConfigMapController.ReconcileConfigMap.RenderAndApplyObjects` | pkg/controller/configmap/configmap_controller.go:221-250 | render, shared-info capture and the apply loop produce exactly the `RenderAndApply` stage of the cycle |
| `ConfigMapController.ReconcileConfigMap.EvictAndRecord` | pkg/controller/configmap/configmap_controller.go:252-285 | pod deletion, the baseline update and the status write produce exactly the `Evict` stage of the cycle |
| `CycleProperties.IgnoresOtherRequests` | pkg/controller/configmap/configmap_controller.go:99-106 | a request naming neither the operator ConfigMap nor the Network returns no error and no requeue; it reports nothing, changes nothing and leaves the state as it was |
| `CycleProperties.MissingSourceObjects` | pkg/controller/configmap/configmap_controller.go:114-146 | not-found on the operator ConfigMap or Network degrades OperatorConfig "NoOperatorConfig" or ClusterConfig "NoClusterConfig" and returns no error; another read error degrades the same concern and returns that error; nothing is applied and the state is unchanged |
| `CycleProperties.InvalidConfigIsRequeued` | pkg/controller/configmap/configmap_controller.go:148-160 | a FillDefaults or Validate failure degrades OperatorConfig ("FillDefaultsError", "InvalidOperatorConfig") and returns the error, with nothing applied and the state unchanged |
| `CycleProperties.GeneratorFailureLeavesBaseline` | pkg/controller/configmap/configmap_controller.go:188-198 | a generator failure returns its error with OperatorConfig degraded "InternalError" and the partial ConfigMap already the baseline; the retry goes straight to change detection against it |
| `CycleProperties.EarlyExitExactlyWithoutChange` | pkg/controller/configmap/configmap_controller.go:199-219 | the cycle ends with both concerns cleared and nothing applied exactly when both change flags are false and the image has not drifted; then only the rebuilt baseline is kept |
| `CycleProperties.ImageReadErrorRequeues` | pkg/controller/configmap/configmap_controller.go:204-209 | with no config change, a deployment read error returns `Requeue: true` with that error and no status update |
| `CycleProperties.NothingWithoutRender` | pkg/controller/configmap/configmap_controller.go:96-228 | a cycle that never reaches a successful render records no cluster change and leaves the shared info untouched |
| `CycleProperties.SharedSpecsFollowRender` | pkg/controller/configmap/configmap_controller.go:221-231 | the shared specs change only in a cycle that renders, and then take the capture of the rendered objects whatever happens later |
| `CycleProperties.ApplyFailureStopsCycle` | pkg/controller/configmap/configmap_controller.go:234-250 | the first failing apply step returns its error with OperatorConfig degraded by its reason ("ApplyObjectsError" or "ApplyOperatorConfig"); the earlier objects stay applied and the baseline is not replaced |
| `CycleProperties.EvictionPhase` | pkg/controller/configmap/configmap_controller.go:252-272 | after a full apply: NCP pods are deleted (if due) before node-agent pods; a failing deletion returns its error with "DeleteOldPodsError" and leaves the baseline; otherwise the baseline and the shared operator ConfigMap become the new configuration, and the trace ends with the status write exactly when the cycle succeeds |
| `CycleProperties.StatusWriteAfterBaseline` | pkg/controller/configmap/configmap_controller.go:271-284 | once deletions succeed the baseline is the new configuration even if the status write fails; the cycle succeeds (clearing both concerns, recording the status write last) exactly when conversion and apply pass, otherwise ClusterConfig is degraded "UpdateNetworkStatusError" |
| `CycleProperties.EvictionIsGated` | pkg/controller/configmap/configmap_controller.go:252-270 | a workload's pods are deleted only after a full apply, with a baseline present and that workload's flag set; node-agent pods only if the NCP deletion, when due, passed; NCP deletion precedes node-agent deletion |
| `CycleProperties.ImageOnlyChangeEvictsNothing` | pkg/controller/configmap/configmap_controller.go:204-270 | when both change flags are false no pods are deleted, even when the image drifted and objects are re-applied |
| `CycleProperties.ColdStartEvictsNothing` | pkg/controller/configmap/configmap_controller.go:163-270 | with no baseline and no derived ConfigMaps deployed, if NeedApplyChange reports both changed the cycle renders whenever Render succeeds and deletes no pods |
| `CycleProperties.OutputsDependOnlyOnBaseline` | pkg/controller/configmap/configmap_controller.go:163-285 | two starting states with the same rebuild result (the rebuilt baseline and the generator's outcome) give the same response, status updates and trace |
| `CycleProperties.RetryAfterEvictionFailureRepeats` | pkg/controller/configmap/configmap_controller.go:252-271 | after a failed pod deletion, a retry with the same inputs returns the same response, status updates and trace, so already deleted NCP pods are deleted again |
| `CycleProperties.SecondCycleChangesNothing` | pkg/controller/configmap/configmap_controller.go:199-271 | after a cycle that returns no error, a second cycle on the same sources against a deployment running the configured image changes nothing in the cluster, given that NeedApplyChange sees no change between a configuration and itself |
| `CycleProperties.StatusWriteFailureRetryExitsEarly` | pkg/controller/configmap/configmap_controller.go:199-284 | a cycle that gets past the deletions and then fails the status write degrades ClusterConfig "UpdateNetworkStatusError"; since the baseline was already updated, the retry on the same inputs (no image drift, NeedApplyChange seeing no change against itself) takes the early exit, clears both concerns, records nothing and leaves the state as it was |

## Left out

- Controller wiring and watches (`Add`, `newReconciler`, `add`). These are framework bootstrap.
- The Kubernetes client, `apply.ApplyObject`, `controllerutil.SetControllerReference`
  and `k8sutil.ToUnstructured`. They appear only as pass/fail outcomes in `Types.Cluster`.
  A successful `SetControllerReference` is modelled as setting the object's controller to
  the Network's name.
- `FillDefaults`, `Validate`, `NeedApplyChange`, `Render` and `GenerateOperatorConfigMap`
  are defined in files that are not part of this model. They are uninterpreted
  function-valued inputs. `ColdStartEvictsNothing` and `SecondCycleChangesNothing` state
  the behaviour of `NeedApplyChange` that they rely on as a hypothesis.
- The fixed names come from `pkg/types`, which is not part of this model. Their values
  are given as constants, and the proofs use only the fact that they are distinct.
- The environment variable holding the NCP image is the `ncpImageEnv` input.
- Logging, and the formatted messages of status conditions. Only the concern and the
  reason code of each status call are modelled.
- Concurrency. The controller is created without `MaxConcurrentReconciles`
  (configmap_controller.go:59), so controller-runtime runs a single worker and cycles
  never overlap; the package-level `appliedConfigMap` relies on that. The model holds
  that baseline as a field of the controller object.
- The label selector, propagation policy and grace period of `deleteExistingPods`. Only
  which component's pods were deleted is recorded.
- A Deployment read with no containers would make the code panic. `Types.WellFormed`
  excludes it; the API server does not return such Deployments.
- `UpdateNetworkStatus`: a conversion that returns neither an object nor an error (the
  code then skips the apply and reports success) is not distinguished from a passing
  conversion followed by the apply.
- Each remote read happens at most once in a cycle, so it is a fixed input per cycle.
  The ordering of remote calls is given by the trace and the stage order.
- `Reconcile` is split into stage methods (`Prepare`, `DecideAndApply`,
  `RenderAndApplyObjects`, `EvictAndRecord`) that keep the code's order and early
  returns. This keeps each proof small.
