/**
 * The package-level state of the reconciliation engine: the cached node list,
 * the runtime facts, the callback registries, and the globals the engine
 * writes while it runs (`updateVendor`, `node.count` and the writes sent to
 * the object store).
 */
module Globals {
  import opened Outcomes
  import opened Objects

  /** A cached cluster node (corev1.Node): its name and its labels. */
  datatype Node = Node(name: string, labels: map<string, string>)

  /** labels[key] on a Go map: the empty string when the key is absent. */
  function Label(n: Node, key: string): string
  {
    if key in n.labels then n.labels[key] else ""
  }

  /** A write the CRUD reconciler sends to the object store, with the object sent. */
  datatype Write = Create(obj: Fields) | Update(obj: Fields)

  /** The globals the engine updates: updateVendor, node.count, and the writes sent so far. */
  datatype State = State(updateVendor: string, nodeCount: int, writes: seq<Write>)

  /** The prefix hooks of callbacks_prefix.go. */
  datatype PrefixHook = GrafanaConfigMap | DriverDaemonSet | DriverValidation

  /** The readiness waiters of waitfor.go. */
  datatype WaitHook = WaitPod | WaitDaemonSet | WaitBuild | WaitDaemonSetLogs

  /** The callback registries `prefixCallback` and `waitFor`, keyed by annotation value or kind. */
  class Registry {
    var prefix: map<string, PrefixHook>
    var waitFor: map<string, WaitHook>

    /** The package initialisation of waitfor.go: three waiters, no prefix hooks. */
    constructor ()
      ensures prefix == map[]
      ensures waitFor == map["Pod" := WaitPod, "DaemonSet" := WaitDaemonSet, "BuildConfig" := WaitBuild]
    {
      prefix := map[];
      waitFor := map["Pod" := WaitPod, "DaemonSet" := WaitDaemonSet, "BuildConfig" := WaitBuild];
    }

    /** SetupCallbacks: both registries are rebuilt from scratch. */
    method SetupCallbacks()
      modifies this
      ensures prefix == map["nvidia-grafana-configmap" := GrafanaConfigMap]
      ensures waitFor == map["Pod" := WaitPod, "DaemonSet" := WaitDaemonSet, "BuildConfig" := WaitBuild,
                             "nvidia-driver-daemonset" := WaitDaemonSetLogs]
      ensures "nvidia-driver-daemonset" !in prefix && "nvidia-driver-internal" !in prefix
    {
      prefix := map[];
      waitFor := map[];
      prefix := prefix["nvidia-grafana-configmap" := GrafanaConfigMap];
      waitFor := waitFor["Pod" := WaitPod];
      waitFor := waitFor["DaemonSet" := WaitDaemonSet];
      waitFor := waitFor["BuildConfig" := WaitBuild];
      waitFor := waitFor["nvidia-driver-daemonset" := WaitDaemonSetLogs];
    }
  }

  /**
   * A ReconcileSpecialResource together with the package globals it works on.
   * The values the engine only reads are constants; the ones it writes are fields.
   */
  class Reconciler {
    const namespace: string           // r.specialresource.Namespace
    const nodes: seq<Node>            // node.list.Items
    const operatingSystem: string
    const kernelVersion: string
    const clusterVersion: string
    const nodeFeature: string
    const registry: Registry
    var updateVendor: string
    var nodeCount: int
    var writes: seq<Write>

    constructor (namespace: string, nodes: seq<Node>, operatingSystem: string, kernelVersion: string,
                 clusterVersion: string, nodeFeature: string, registry: Registry)
      ensures this.namespace == namespace && this.nodes == nodes && this.registry == registry
      ensures this.operatingSystem == operatingSystem && this.kernelVersion == kernelVersion
      ensures this.clusterVersion == clusterVersion && this.nodeFeature == nodeFeature
      ensures Snapshot() == State("", 0, [])
    {
      this.namespace := namespace;
      this.nodes := nodes;
      this.operatingSystem := operatingSystem;
      this.kernelVersion := kernelVersion;
      this.clusterVersion := clusterVersion;
      this.nodeFeature := nodeFeature;
      this.registry := registry;
      updateVendor := "";
      nodeCount := 0;
      writes := [];
    }

    function Snapshot(): State
      reads this
    {
      State(updateVendor, nodeCount, writes)
    }
  }
}
