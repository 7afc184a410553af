/**
 Where the controllers meet on a node: the kernel label one controller writes and the driver DaemonSets select by
 (controllers/node_kernel_reconciler.go), and the ready labels that the pods of the DaemonSets cause and the device
 plugin is scheduled by (internal/daemonset/daemonset.go).
 */
module NodeLabels {
  import opened Base
  import opened Text
  import opened KernelMapper
  import opened KernelOsDtk
  import opened PodLabeler
  import opened Reconciler

  function Labelled(node: Node): Node {
    node.(labels := node.labels[KERNEL_LABEL := KernelOf(node)])
  }

  /** The node-kernel controller; osImageVersion is what its regexp finds in the node's OS image, "" if nothing. */
  method RegisterNode(node: Node, osImageVersion: string, mapping: KernelOsDtkMapping, patchFails: bool)
    returns (r: Option<Node>)
    modifies mapping
    ensures r == if osImageVersion == "" || patchFails then None else Some(Labelled(node))
    ensures r.Some? ==> r.value == node.(labels :=
      node.labels["kmm.node.kubernetes.io/kernel-version.full" := TrimPlus(node.kernelVersion)])
    ensures mapping.osToDtk == old(mapping.osToDtk)
    ensures mapping.kernelToOs ==
      if osImageVersion == "" then old(mapping.kernelToOs)
      else old(mapping.kernelToOs)[TrimPlus(node.kernelVersion) := osImageVersion]
  {
    var kernelVersion := TrimPlus(node.kernelVersion);
    if osImageVersion == "" {
      return None;
    }
    mapping.SetNodeInfo(kernelVersion, osImageVersion);
    var labels := node.labels[KERNEL_LABEL := kernelVersion];
    return if patchFails then None else Some(node.(labels := labels));
  }

  /** A labelled node stays a target of the modules that select it, and becomes one their drivers can run on. */
  lemma LabelledBecomesTarget(mod: Module, node: Node)
    requires Selects(mod.selector, node.labels)
    ensures LabelledTarget(mod, Labelled(node)) <==>
      KERNEL_LABEL !in mod.selector || mod.selector[KERNEL_LABEL] == KernelOf(node)
  {
    if LabelledTarget(mod, Labelled(node)) && KERNEL_LABEL in mod.selector {
      assert Labelled(node).labels[KERNEL_LABEL] == mod.selector[KERNEL_LABEL];
    }
  }

  /** A pod as a DaemonSet's template creates it, before it is scheduled. */
  function PodOf(ds: DaemonSet): Pod {
    Pod("", Some(ds.moduleName), ds.kernel, false, false, NODE_LABELER_FINALIZER in ds.podFinalizers)
  }

  /** Pods of the DaemonSets a pass writes are born with the finalizer and stand for the label of their kind. */
  lemma PodsAreBornHeld(mld: ModuleLoaderData, all: DaemonSets, m: string, devicePlugin: Option<string>)
    ensures DesiredDriver(mld).Some? ==>
      PodOf(DesiredDriver(mld).value).finalizer &&
        Yields(PodOf(DesiredDriver(mld).value)) == Some(DriverLabel(mld.name))
    ensures devicePlugin.Some? ==>
      var ds := WithDevicePlugin(all, m, devicePlugin)[DevicePluginName(m)];
      PodOf(ds).finalizer && Yields(PodOf(ds)) == Some(DevicePluginLabel(m))
  {
  }

  /**
   The device plugin runs only where the driver does: after a successful pass, in any state of any run of the labelling
   controller, a node that the device plugin's selector matches has a module-loader pod of the module, held by its
   finalizer.
   */
  lemma DevicePluginFollowsDriver(before: DaemonSets, after: DaemonSets, m: string, devicePlugin: Option<string>,
                                  mlds: map<string, ModuleLoaderData>, completed: set<string>,
                                  run: seq<PodLabeler.World>, i: nat, node: string, labels: map<string, string>)
    requires Reconciled(before, after, m, devicePlugin, mlds, completed) && devicePlugin.Some?
    requires PodLabeler.IsRun(run) && i < |run| && node in run[i].nodes && labels.Keys == run[i].nodes[node]
    requires Selects(after[DevicePluginName(m)].nodeSelector, labels)
    ensures exists name :: HeldPod(run[i], name, node, m, false)
  {
    assert DriverLabel(m) in after[DevicePluginName(m)].nodeSelector;
    ReadyLabelMeansPod(run, i, node, m, false);
  }
}
