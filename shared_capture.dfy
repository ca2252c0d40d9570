/**
 * How the rendered objects are published to the shared info: each of the
 * three known names keeps a copy of the last rendered object bearing it.
 */
module SharedCapture {
  import opened Types

  /** The three shared-info fields that hold rendered specs. */
  datatype Slot = NodeAgentDs | BootstrapDs | NcpDeployment

  function SlotName(slot: Slot): string
  {
    match slot
    case NodeAgentDs => NsxNodeAgentDsName
    case BootstrapDs => NsxNcpBootstrapDsName
    case NcpDeployment => NsxNcpDeploymentName
  }

  function SlotValue(shared: SharedInfo, slot: Slot): Option<Obj>
  {
    match slot
    case NodeAgentDs => shared.nodeAgentDsSpec
    case BootstrapDs => shared.bootstrapDsSpec
    case NcpDeployment => shared.deploymentSpec
  }

  /** One iteration of updateSharedInfoWithNsxNcpResources. */
  function CaptureObject(shared: SharedInfo, obj: Obj): SharedInfo
  {
    if obj.name == NsxNodeAgentDsName then shared.(nodeAgentDsSpec := Some(obj))
    else if obj.name == NsxNcpBootstrapDsName then shared.(bootstrapDsSpec := Some(obj))
    else if obj.name == NsxNcpDeploymentName then shared.(deploymentSpec := Some(obj))
    else shared
  }

  /** The whole loop, over the objects in render order. */
  function Capture(shared: SharedInfo, objs: seq<Obj>): SharedInfo
    decreases |objs|
  {
    if objs == [] then shared
    else CaptureObject(Capture(shared, objs[..|objs| - 1]), objs[|objs| - 1])
  }

  /** A slot is touched by an object exactly when the object bears its name. */
  lemma CaptureObjectSlot(shared: SharedInfo, obj: Obj, slot: Slot)
    ensures SlotValue(CaptureObject(shared, obj), slot)
         == if obj.name == SlotName(slot) then Some(obj) else SlotValue(shared, slot)
  {
  }

  /** No object after position i bears the name. */
  predicate NoneNamedAfter(objs: seq<Obj>, i: int, name: string)
  {
    forall j :: 0 <= j < |objs| && i < j ==> objs[j].name != name
  }

  /** The operator ConfigMap and the Network are never touched by the loop. */
  lemma {:induction false} CaptureKeepsOtherFields(shared: SharedInfo, objs: seq<Obj>)
    ensures Capture(shared, objs).operatorConfigMap == shared.operatorConfigMap
    ensures Capture(shared, objs).networkConfig == shared.networkConfig
    decreases |objs|
  {
    if objs != [] {
      CaptureKeepsOtherFields(shared, objs[..|objs| - 1]);
    }
  }

  /** A slot that no rendered object names keeps its previous value. */
  lemma {:induction false} CaptureKeepsUnnamedSlot(shared: SharedInfo, objs: seq<Obj>, slot: Slot)
    requires NoneNamedAfter(objs, -1, SlotName(slot))
    ensures SlotValue(Capture(shared, objs), slot) == SlotValue(shared, slot)
    decreases |objs|
  {
    if objs != [] {
      var init := objs[..|objs| - 1];
      assert NoneNamedAfter(init, -1, SlotName(slot)) by {
        forall j | 0 <= j < |init| ensures init[j].name != SlotName(slot) {
          assert init[j] == objs[j];
        }
      }
      CaptureKeepsUnnamedSlot(shared, init, slot);
      CaptureObjectSlot(Capture(shared, init), objs[|objs| - 1], slot);
    }
  }

  /** A slot holds the last rendered object that bears its name. */
  lemma {:induction false} CaptureKeepsLastMatch(shared: SharedInfo, objs: seq<Obj>, slot: Slot, i: nat)
    requires i < |objs| && objs[i].name == SlotName(slot)
    requires NoneNamedAfter(objs, i, SlotName(slot))
    ensures SlotValue(Capture(shared, objs), slot) == Some(objs[i])
    decreases |objs|
  {
    var init, last := objs[..|objs| - 1], objs[|objs| - 1];
    CaptureObjectSlot(Capture(shared, init), last, slot);
    if i < |objs| - 1 {
      assert last.name != SlotName(slot);
      assert NoneNamedAfter(init, i, SlotName(slot)) by {
        forall j | 0 <= j < |init| && i < j ensures init[j].name != SlotName(slot) {
          assert init[j] == objs[j];
        }
      }
      CaptureKeepsLastMatch(shared, init, slot, i);
    }
  }
}
