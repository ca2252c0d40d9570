/**
 * The Network CRD status the controller derives from the Network spec, and
 * the write that records it in the cluster.
 */
module StatusProjection {
  import opened Types

  /** The status derived from a spec: service networks copied in order,
      cluster network entries copied in order keeping only the CIDR (the host
      prefix is left at zero), and the network type copied. */
  function NetworkStatusOf(spec: NetworkSpec): (status: NetworkStatus)
    ensures status.serviceNetwork == spec.serviceNetwork
    ensures |status.clusterNetwork| == |spec.clusterNetwork|
    ensures forall i :: 0 <= i < |spec.clusterNetwork| ==>
              status.clusterNetwork[i] == ClusterNetworkEntry(spec.clusterNetwork[i].cidr, 0)
    ensures status.networkType == spec.networkType
  {
    NetworkStatus(CidrsOnly(spec.clusterNetwork), spec.serviceNetwork, spec.networkType)
  }

  function CidrsOnly(entries: seq<ClusterNetworkEntry>): seq<ClusterNetworkEntry>
  {
    seq(|entries|, i requires 0 <= i < |entries| => ClusterNetworkEntry(entries[i].cidr, 0))
  }

  /** No host prefix of the spec survives in the status. */
  lemma StatusDropsHostPrefix(spec: NetworkSpec, e: ClusterNetworkEntry)
    requires e in NetworkStatusOf(spec).clusterNetwork
    ensures e.hostPrefix == 0
    ensures exists i :: 0 <= i < |spec.clusterNetwork| && e.cidr == spec.clusterNetwork[i].cidr
  {
    var status := NetworkStatusOf(spec);
    var i :| 0 <= i < |status.clusterNetwork| && status.clusterNetwork[i] == e;
    assert e == ClusterNetworkEntry(spec.clusterNetwork[i].cidr, 0);
  }

  /** Two specs that differ only in host prefixes give the same status. */
  lemma StatusIgnoresHostPrefix(a: NetworkSpec, b: NetworkSpec)
    requires a.serviceNetwork == b.serviceNetwork && a.networkType == b.networkType
    requires |a.clusterNetwork| == |b.clusterNetwork|
    requires forall i :: 0 <= i < |a.clusterNetwork| ==> a.clusterNetwork[i].cidr == b.clusterNetwork[i].cidr
    ensures NetworkStatusOf(a) == NetworkStatusOf(b)
  {
    assert NetworkStatusOf(a).clusterNetwork == NetworkStatusOf(b).clusterNetwork;
  }

  /** getNetworkCRD: builds the status with two append loops. */
  method GetNetworkCRD(network: Network) returns (status: NetworkStatus)
    ensures status == NetworkStatusOf(network.spec)
  {
    status := EmptyStatus;
    var services := network.spec.serviceNetwork;
    for i := 0 to |services|
      invariant status.serviceNetwork == services[..i]
      invariant status.clusterNetwork == [] && status.networkType == ""
    {
      status := status.(serviceNetwork := status.serviceNetwork + [services[i]]);
    }
    var clusters := network.spec.clusterNetwork;
    for i := 0 to |clusters|
      invariant status.serviceNetwork == services
      invariant status.clusterNetwork == CidrsOnly(clusters[..i])
      invariant status.networkType == ""
    {
      status := status.(clusterNetwork := status.clusterNetwork + [ClusterNetworkEntry(clusters[i].cidr, 0)]);
    }
    status := status.(networkType := network.spec.networkType);
  }

  /** updateNetworkStatus: sets the status on the Network, converts it to an
      unstructured object and applies it. Returns the Network with its new
      status (the caller's object is updated before the conversion) and an
      error exactly when the conversion or the apply fails, the conversion's
      error first. */
  method UpdateNetworkStatus(network: Network, cluster: Cluster) returns (updated: Network, outcome: Outcome)
    ensures updated.name == network.name && updated.spec == network.spec
    ensures updated.status == NetworkStatusOf(network.spec)
    ensures outcome.Pass? <==> cluster.toUnstructured.Pass? && cluster.applyNetworkStatus.Pass?
    ensures cluster.toUnstructured.Fail? ==> outcome == cluster.toUnstructured
    ensures cluster.toUnstructured.Pass? ==> outcome == cluster.applyNetworkStatus
  {
    var status := GetNetworkCRD(network);
    updated := network.(status := status);
    if cluster.toUnstructured.Fail? {
      return updated, cluster.toUnstructured;
    }
    if cluster.applyNetworkStatus.Fail? {
      return updated, cluster.applyNetworkStatus;
    }
    outcome := Pass;
  }
}
