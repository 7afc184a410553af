/**
 The controller that labels nodes with the modules ready on them (controllers/pod_node_module_reconciler.go) and the
 pods, nodes and other actors it interleaves with.

 One worker takes the steps of Reconcile one API call at a time. Between any two of them pods are created, change,
 are asked to be deleted and disappear, and nodes come and go. A pod read may return any version of the pod that is not
 older than the version last read; pod names are not reused; every pod is born with the finalizer, which only the
 worker removes.
 */
module PodLabeler {
  import opened Base

  const PREFIX := "kmm.node.kubernetes.io/"

  /** The labels of a pod the worker looks at, and what changes over its life. */
  datatype Pod = Pod(
    node: string, moduleName: Option<string>, kernel: string, ready: bool, deleting: bool, finalizer: bool)

  function DriverLabel(moduleName: string): string {
    PREFIX + moduleName + ".ready"
  }

  function DevicePluginLabel(moduleName: string): string {
    PREFIX + moduleName + ".device-plugin-ready"
  }

  /** GetNodeLabelFromPod: a pod without a kernel label belongs to the device plugin. */
  function NodeLabel(kernel: string, moduleName: string): string {
    if kernel == "" then DevicePluginLabel(moduleName) else DriverLabel(moduleName)
  }

  /** The ready label a pod stands for. */
  function Yields(p: Pod): Option<string> {
    if p.moduleName.None? then None else Some(NodeLabel(p.kernel, p.moduleName.value))
  }

  ghost predicate IsReadyLabel(key: string) {
    exists m :: key == DriverLabel(m) || key == DevicePluginLabel(m)
  }

  /** A label name determines the module and the kind of pod it speaks about. */
  lemma LabelNamesAreUnambiguous(m1: string, m2: string)
    ensures DriverLabel(m1) == DriverLabel(m2) ==> m1 == m2
    ensures DevicePluginLabel(m1) == DevicePluginLabel(m2) ==> m1 == m2
    ensures DriverLabel(m1) != DevicePluginLabel(m2)
  {
    var (d1, d2, p1, p2) := (DriverLabel(m1), DriverLabel(m2), DevicePluginLabel(m1), DevicePluginLabel(m2));
    var n := |PREFIX|;
    assert d1[n..|d1| - 6] == m1 && d2[n..|d2| - 6] == m2;
    assert p1[n..|p1| - 20] == m1 && p2[n..|p2| - 20] == m2;
    assert d1[|d1| - 6] == '.' && p2[|p2| - 6] == '-';
  }

  // ---- The world and its steps -----------------------------------------------------------------------

  /** Where the worker is inside Reconcile; pod is the copy it read. */
  datatype Worker =
    | Idle
    | Unlabel(name: string, pod: Pod)                 // deleteLabel, before reading the node
    | UnlabelRead(name: string, pod: Pod, had: bool)  // node read, patch not sent; had: it carried the label
    | Unfinalize(name: string, pod: Pod)
    | Label(name: string, pod: Pod)
    | LabelRead(name: string, pod: Pod, had: bool)

  /** versions holds every version of every pod ever created, seen the version each pod was last read at. */
  datatype World = World(
    nodes: map<string, set<string>>,
    live: set<string>,
    versions: map<string, seq<Pod>>,
    seen: map<string, nat>,
    worker: Worker)

  function Latest(w: World, name: string): Pod
    requires name in w.versions && w.versions[name] != []
  {
    w.versions[name][|w.versions[name]| - 1]
  }

  /** What no update of a pod undoes: its node, its labels, a request to delete it. */
  predicate Follows(p: Pod, q: Pod) {
    && (p.node != "" ==> q.node == p.node)
    && q.moduleName == p.moduleName && q.kernel == p.kernel
    && (p.deleting ==> q.deleting)
  }

  /** How a pod may change without the worker: scheduling, readiness, a request to delete it. */
  predicate Evolves(p: Pod, q: Pod) {
    Follows(p, q) && q.finalizer == p.finalizer
  }

  ghost predicate SameReadyLabels(a: set<string>, b: set<string>) {
    forall l :: IsReadyLabel(l) ==> (l in a <==> l in b)
  }

  ghost predicate CreatePod(w: World, w': World, name: string, p: Pod) {
    && name !in w.versions && p.finalizer && !p.deleting
    && w' == w.(live := w.live + {name}, versions := w.versions[name := [p]], seen := w.seen[name := 0])
  }

  ghost predicate ChangePod(w: World, w': World, name: string, p: Pod) {
    && name in w.live && name in w.versions && w.versions[name] != [] && Evolves(Latest(w, name), p)
    && w' == w.(versions := w.versions[name := w.versions[name] + [p]])
  }

  /** The API server drops a pod once its deletion is requested and no finalizer is left. */
  ghost predicate DropPod(w: World, w': World, name: string) {
    && name in w.live && name in w.versions && w.versions[name] != []
    && Latest(w, name).deleting && !Latest(w, name).finalizer
    && w' == w.(live := w.live - {name})
  }

  /** Other actors add nodes, and change labels of nodes, but not the ready labels. */
  ghost predicate ChangeNode(w: World, w': World, node: string, labels: set<string>) {
    && node != "" && SameReadyLabels(labels, if node in w.nodes then w.nodes[node] else {})
    && w' == w.(nodes := w.nodes[node := labels])
  }

  ghost predicate RemoveNode(w: World, w': World, node: string) {
    w' == w.(nodes := w.nodes - {node})
  }

  ghost predicate EnvStep(w: World, w': World) {
    || (exists name, p :: CreatePod(w, w', name, p))
    || (exists name, p :: ChangePod(w, w', name, p))
    || (exists name :: DropPod(w, w', name))
    || (exists node, labels :: ChangeNode(w, w', node, labels))
    || (exists node :: RemoveNode(w, w', node))
  }

  /** The Get of Reconcile: some version not older than the last one read, and the branch taken on it. */
  ghost predicate ReadPod(w: World, w': World, name: string, i: nat) {
    && w.worker.Idle? && name in w.versions && name in w.seen && w.seen[name] <= i < |w.versions[name]|
    && var p := w.versions[name][i];
       w' == w.(seen := w.seen[name := i],
                worker := if p.moduleName.None? then Idle
                          else if !p.ready || p.deleting then Unlabel(name, p) else Label(name, p))
  }

  predicate HasLabel(w: World, node: string, p: Pod) {
    node in w.nodes && p.moduleName.Some? && NodeLabel(p.kernel, p.moduleName.value) in w.nodes[node]
  }

  /** addLabel and deleteLabel read the node first; a missing node ends the reconciliation with an error. */
  function ReadNode(w: World): World
    requires w.worker.Unlabel? || w.worker.Label?
  {
    var (name, p) := (w.worker.name, w.worker.pod);
    var had := HasLabel(w, p.node, p);
    w.(worker := if p.node !in w.nodes then Idle
                 else if w.worker.Unlabel? then UnlabelRead(name, p, had) else LabelRead(name, p, had))
  }

  function WithLabels(w: World, node: string, labels: set<string>): World {
    w.(nodes := w.nodes[node := labels])
  }

  /** The merge patch holds only the difference to the node as read, so it is empty when nothing was to change. */
  function PatchNode(w: World): World
    requires (w.worker.UnlabelRead? || w.worker.LabelRead?) && w.worker.pod.moduleName.Some?
  {
    var (name, p, had) := (w.worker.name, w.worker.pod, w.worker.had);
    var key := NodeLabel(p.kernel, p.moduleName.value);
    if p.node !in w.nodes then w.(worker := Idle)
    else if w.worker.LabelRead? then
      (if had then w else WithLabels(w, p.node, w.nodes[p.node] + {key})).(worker := Idle)
    else
      (if had then WithLabels(w, p.node, w.nodes[p.node] - {key}) else w)
        .(worker := if p.deleting then Unfinalize(name, p) else Idle)
  }

  /** deleteFinalizer; a pod that is already gone is not an error. */
  function PatchPod(w: World): World
    requires w.worker.Unfinalize?
  {
    var (name, p) := (w.worker.name, w.worker.pod);
    (if name in w.live && name in w.versions && w.versions[name] != [] && p.finalizer
     then w.(versions := w.versions[name := w.versions[name] + [Latest(w, name).(finalizer := false)]]) else w)
      .(worker := Idle)
  }

  /** A label that was as wanted when the node was read is left as others have made it since; any other is set so. */
  lemma PatchSendsDifference(w: World)
    requires (w.worker.UnlabelRead? || w.worker.LabelRead?) && w.worker.pod.moduleName.Some?
    requires w.worker.pod.node in w.nodes
    ensures var (w', p, wanted) := (PatchNode(w), w.worker.pod, w.worker.LabelRead?);
      && (w.worker.had == wanted ==> w'.nodes == w.nodes)
      && (w.worker.had != wanted ==>
          && (NodeLabel(p.kernel, p.moduleName.value) in w'.nodes[p.node] <==> wanted)
          && forall n :: n in w.nodes && n != p.node ==> n in w'.nodes && w'.nodes[n] == w.nodes[n])
  {
  }

  /** What may happen between any two API calls of the worker, whatever it is doing. */
  lemma OthersInterfere(w: World, name: string, p: Pod, node: string, l: string)
    ensures name !in w.versions && p.finalizer && !p.deleting ==>
      EnvStep(w, w.(live := w.live + {name}, versions := w.versions[name := [p]], seen := w.seen[name := 0]))
    ensures name in w.live && name in w.versions && w.versions[name] != [] ==>
      var (vs, last) := (w.versions[name], Latest(w, name));
      && EnvStep(w, w.(versions := w.versions[name := vs + [last.(ready := !last.ready)]]))
      && EnvStep(w, w.(versions := w.versions[name := vs + [last.(deleting := true)]]))
      && (last.node == "" ==> EnvStep(w, w.(versions := w.versions[name := vs + [last.(node := node)]])))
      && (last.deleting && !last.finalizer ==> EnvStep(w, w.(live := w.live - {name})))
    ensures EnvStep(w, w.(nodes := w.nodes - {node}))
    ensures node != "" && node !in w.nodes ==> EnvStep(w, w.(nodes := w.nodes[node := {}]))
    ensures node != "" && node in w.nodes && !IsReadyLabel(l) ==>
      EnvStep(w, w.(nodes := w.nodes[node := w.nodes[node] + {l}]))
  {
    if name !in w.versions && p.finalizer && !p.deleting {
      var created := w.(live := w.live + {name}, versions := w.versions[name := [p]], seen := w.seen[name := 0]);
      assert CreatePod(w, created, name, p);
    } else if name in w.live && name in w.versions && w.versions[name] != [] {
      var (vs, last) := (w.versions[name], Latest(w, name));
      assert ChangePod(w, w.(versions := w.versions[name := vs + [last.(ready := !last.ready)]]), name,
                       last.(ready := !last.ready));
      assert ChangePod(w, w.(versions := w.versions[name := vs + [last.(deleting := true)]]), name,
                       last.(deleting := true));
      if last.node == "" {
        assert ChangePod(w, w.(versions := w.versions[name := vs + [last.(node := node)]]), name, last.(node := node));
      }
      if last.deleting && !last.finalizer { assert DropPod(w, w.(live := w.live - {name}), name); }
    }
    assert RemoveNode(w, w.(nodes := w.nodes - {node}), node);
    if node != "" && node !in w.nodes {
      assert ChangeNode(w, w.(nodes := w.nodes[node := {}]), node, {});
    } else if node != "" && !IsReadyLabel(l) {
      var labels := w.nodes[node] + {l};
      assert ChangeNode(w, w.(nodes := w.nodes[node := labels]), node, labels);
    }
  }

  /** Any API call may fail, and the process may restart: Reconcile is abandoned where it is. */
  ghost predicate WorkerStep(w: World, w': World) {
    || (exists name, i :: ReadPod(w, w', name, i))
    || ((w.worker.Unlabel? || w.worker.Label?) && w' == ReadNode(w))
    || ((w.worker.UnlabelRead? || w.worker.LabelRead?) && w.worker.pod.moduleName.Some? && w' == PatchNode(w))
    || (w.worker.Unfinalize? && w' == PatchPod(w))
    || w' == w.(worker := Idle)
  }

  ghost predicate Init(w: World) {
    && w.live == {} && w.versions == map[] && w.seen == map[] && w.worker == Idle
    && "" !in w.nodes
    && forall n, l :: n in w.nodes && IsReadyLabel(l) ==> l !in w.nodes[n]
  }

  ghost predicate IsRun(run: seq<World>) {
    run != [] && Init(run[0]) && forall i :: 0 < i < |run| ==>
      EnvStep(run[i - 1], run[i]) || WorkerStep(run[i - 1], run[i])
  }

  // ---- The invariant -----------------------------------------------------------------------------------

  /** A pod of this node that stands for the key, still held back by its finalizer. */
  ghost predicate Backs(w: World, name: string, node: string, key: string) {
    && name in w.live && name in w.versions && w.versions[name] != []
    && Latest(w, name).node == node && Yields(Latest(w, name)) == Some(key) && Latest(w, name).finalizer
  }

  /** What the ready labels of the nodes promise. */
  ghost predicate LabelsAreBacked(w: World) {
    forall node, key :: node in w.nodes && key in w.nodes[node] && IsReadyLabel(key) ==>
      exists name :: Backs(w, name, node, key)
  }

  /** The versions of one pod, oldest first. */
  ghost predicate History(vs: seq<Pod>) {
    vs != [] && forall i, j :: 0 <= i <= j < |vs| ==> Follows(vs[i], vs[j])
  }

  /** A finalizer is gone only if the worker has already read a version of the pod that was being deleted. */
  ghost predicate PodAgrees(vs: seq<Pod>, seen: nat, live: bool) {
    && History(vs) && seen < |vs|
    && (vs[|vs| - 1].finalizer || vs[seen].deleting)
    && (live || !vs[|vs| - 1].finalizer)
  }

  ghost predicate PodsAgree(w: World) {
    && w.seen.Keys == w.versions.Keys
    && forall name :: name in w.versions ==> PodAgrees(w.versions[name], w.seen[name], name in w.live)
  }

  /** What the worker knows at each position. */
  ghost predicate WorkerAgrees(w: World) {
    w.worker.Idle? ||
    var (name, p) := (w.worker.name, w.worker.pod);
    && name in w.versions && name in w.seen && w.seen[name] < |w.versions[name]| && w.versions[name][w.seen[name]] == p
    && p.moduleName.Some?
    && (w.worker.Label? || w.worker.LabelRead? ==> !p.deleting)
    && (w.worker.UnlabelRead? && !w.worker.had ==> !HasLabel(w, p.node, p))
    && (w.worker.Unfinalize? ==> p.deleting && !HasLabel(w, p.node, p) && p.node != "")
    && (w.worker.UnlabelRead? || w.worker.LabelRead? ==> p.node != "")
  }

  ghost predicate Inv(w: World) {
    "" !in w.nodes && PodsAgree(w) && WorkerAgrees(w) && LabelsAreBacked(w)
  }

  lemma YieldsReadyLabel(p: Pod)
    requires p.moduleName.Some?
    ensures IsReadyLabel(NodeLabel(p.kernel, p.moduleName.value))
  {
  }

  /** Labels stay backed when no label is added and every backing pod goes on backing. */
  lemma StaysBacked(w: World, w': World)
    requires LabelsAreBacked(w)
    requires forall node, key :: node in w'.nodes && key in w'.nodes[node] && IsReadyLabel(key) ==>
      node in w.nodes && key in w.nodes[node]
    requires forall name, node, key ::
      node in w'.nodes && key in w'.nodes[node] && Backs(w, name, node, key) ==> Backs(w', name, node, key)
    ensures LabelsAreBacked(w')
  {
    forall node, key | node in w'.nodes && key in w'.nodes[node] && IsReadyLabel(key)
      ensures exists name :: Backs(w', name, node, key)
    {
      var name :| Backs(w, name, node, key);
      assert Backs(w', name, node, key);
    }
  }

  lemma CreateKeepsLabels(w: World, w': World, name: string, p: Pod)
    requires LabelsAreBacked(w) && CreatePod(w, w', name, p)
    ensures LabelsAreBacked(w')
  {
    hide IsReadyLabel, NodeLabel;
    StaysBacked(w, w');
  }

  lemma CreateKeepsPods(w: World, w': World, name: string, p: Pod)
    requires PodsAgree(w) && CreatePod(w, w', name, p)
    ensures PodsAgree(w')
  {
    assert PodAgrees([p], 0, true);
    hide PodAgrees;
  }

  lemma CreatePodKeepsInv(w: World, w': World, name: string, p: Pod)
    requires Inv(w) && CreatePod(w, w', name, p)
    ensures Inv(w')
  {
    CreateKeepsPods(w, w', name, p);
    CreateKeepsLabels(w, w', name, p);
    hide PodsAgree, LabelsAreBacked, NodeLabel;
  }

  lemma HistoryGrows(vs: seq<Pod>, p: Pod)
    requires History(vs) && Follows(vs[|vs| - 1], p)
    ensures History(vs + [p])
  {
    forall i | 0 <= i < |vs| ensures Follows(vs[i], p) {
      assert Follows(vs[i], vs[|vs| - 1]);
    }
  }

  /** w' is w with one version more of a live pod. */
  ghost predicate Appended(w: World, w': World, name: string, p: Pod) {
    && name in w.versions && name in w.live && w.versions[name] != []
    && w'.versions == w.versions[name := w.versions[name] + [p]] && w'.live == w.live && w'.seen == w.seen &&
      w'.nodes == w.nodes
  }

  /** Appending a version keeps what is known about the pods, if a lost finalizer is one the worker may have removed. */
  lemma AppendVersion(w: World, w': World, name: string, p: Pod)
    requires PodsAgree(w) && Appended(w, w', name, p)
    requires Follows(Latest(w, name), p)
    requires Latest(w, name).finalizer && !p.finalizer ==> w.versions[name][w.seen[name]].deleting
    requires !Latest(w, name).finalizer ==> !p.finalizer
    ensures PodsAgree(w')
  {
    var vs := w.versions[name];
    assert PodAgrees(vs, w.seen[name], true);
    HistoryGrows(vs, p);
    hide History, Follows;
    assert PodAgrees(vs + [p], w.seen[name], true);
    hide PodAgrees;
  }

  lemma AppendKeepsWorker(w: World, w': World, name: string, p: Pod)
    requires WorkerAgrees(w) && Appended(w, w', name, p) && w'.worker == w.worker
    ensures WorkerAgrees(w')
  {
  }

  lemma AppendKeepsLabels(w: World, w': World, name: string, p: Pod)
    requires "" !in w.nodes && LabelsAreBacked(w) && Appended(w, w', name, p) && Evolves(Latest(w, name), p)
    ensures LabelsAreBacked(w')
  {
    forall n, node, key | node in w'.nodes && key in w'.nodes[node] && Backs(w, n, node, key)
      ensures Backs(w', n, node, key)
    {
      if n == name { assert Latest(w', n) == p; }
    }
    StaysBacked(w, w');
  }

  lemma ChangePodKeepsInv(w: World, w': World, name: string, p: Pod)
    requires Inv(w) && ChangePod(w, w', name, p)
    ensures Inv(w')
  {
    AppendVersion(w, w', name, p);
    AppendKeepsWorker(w, w', name, p);
    AppendKeepsLabels(w, w', name, p);
  }

  lemma DropPodKeepsInv(w: World, w': World, name: string)
    requires Inv(w) && DropPod(w, w', name)
    ensures Inv(w')
  {
    hide IsReadyLabel, NodeLabel, History;
    StaysBacked(w, w');
  }

  lemma ChangeNodeKeepsLabels(w: World, w': World, node: string, labels: set<string>)
    requires LabelsAreBacked(w) && ChangeNode(w, w', node, labels)
    ensures LabelsAreBacked(w')
  {
    StaysBacked(w, w');
  }

  lemma ChangeNodeKeepsWorker(w: World, w': World, node: string, labels: set<string>)
    requires WorkerAgrees(w) && ChangeNode(w, w', node, labels)
    ensures WorkerAgrees(w')
  {
    if !w.worker.Idle? { YieldsReadyLabel(w.worker.pod); }
  }

  lemma ChangeNodeKeepsInv(w: World, w': World, node: string, labels: set<string>)
    requires Inv(w) && ChangeNode(w, w', node, labels)
    ensures Inv(w')
  {
    ChangeNodeKeepsLabels(w, w', node, labels);
    ChangeNodeKeepsWorker(w, w', node, labels);
  }

  lemma RemoveNodeKeepsInv(w: World, w': World, node: string)
    requires Inv(w) && RemoveNode(w, w', node)
    ensures Inv(w')
  {
    hide IsReadyLabel, NodeLabel, PodAgrees;
    StaysBacked(w, w');
  }

  /** A version read later is deleting if an earlier one was. */
  lemma ReadKeepsPods(w: World, w': World, name: string, i: nat)
    requires PodsAgree(w) && ReadPod(w, w', name, i)
    ensures PodsAgree(w')
  {
    assert PodAgrees(w.versions[name], w.seen[name], name in w.live);
    assert Follows(w.versions[name][w.seen[name]], w.versions[name][i]);
    hide History;
    assert PodAgrees(w.versions[name], i, name in w.live);
    hide PodAgrees;
  }

  lemma ReadPodKeepsInv(w: World, w': World, name: string, i: nat)
    requires Inv(w) && ReadPod(w, w', name, i)
    ensures Inv(w')
  {
    hide IsReadyLabel, NodeLabel, PodAgrees;
    ReadKeepsPods(w, w', name, i);
    hide PodsAgree;
    StaysBacked(w, w');
  }

  lemma ReadNodeKeepsInv(w: World)
    requires Inv(w) && (w.worker.Unlabel? || w.worker.Label?)
    ensures Inv(ReadNode(w))
  {
    hide IsReadyLabel, NodeLabel, PodAgrees;
    StaysBacked(w, ReadNode(w));
  }

  /** A pod read while not being deleted still has its finalizer, and its node and labels. */
  lemma WorkersPodBacks(w: World)
    requires PodsAgree(w) && WorkerAgrees(w) && w.worker.LabelRead?
    ensures var p := w.worker.pod; Backs(w, w.worker.name, p.node, NodeLabel(p.kernel, p.moduleName.value))
  {
    hide NodeLabel;
    assert PodAgrees(w.versions[w.worker.name], w.seen[w.worker.name], w.worker.name in w.live);
    assert Follows(w.worker.pod, Latest(w, w.worker.name));
  }

  /** A label is added for a pod read while not being deleted, so its finalizer is still there to back it. */
  lemma LabelKeepsInv(w: World)
    requires Inv(w) && w.worker.LabelRead?
    ensures Inv(PatchNode(w))
    ensures var p := w.worker.pod;
      p.node in w.nodes && !w.worker.had ==>
        PatchNode(w).nodes == w.nodes[p.node := w.nodes[p.node] + {NodeLabel(p.kernel, p.moduleName.value)}]
  {
    hide IsReadyLabel, NodeLabel;
    var (name, p) := (w.worker.name, w.worker.pod);
    var w' := PatchNode(w);
    WorkersPodBacks(w);
    hide PodAgrees;
    assert Backs(w', name, p.node, NodeLabel(p.kernel, p.moduleName.value));
    forall node, key | node in w'.nodes && key in w'.nodes[node] && IsReadyLabel(key)
      ensures exists n :: Backs(w', n, node, key)
    {
      if node in w.nodes && key in w.nodes[node] {
        var n :| Backs(w, n, node, key);
        assert Backs(w', n, node, key);
      }
    }
  }

  lemma UnlabelKeepsInv(w: World)
    requires Inv(w) && w.worker.UnlabelRead?
    ensures Inv(PatchNode(w))
  {
    hide IsReadyLabel, NodeLabel, PodAgrees;
    StaysBacked(w, PatchNode(w));
  }

  /** The label that the worker's pod yields is not on its node, so nothing on a node was backed by that pod. */
  lemma UnfinalizeKeepsLabels(w: World)
    requires Inv(w) && w.worker.Unfinalize?
    ensures LabelsAreBacked(PatchPod(w))
  {
    var (name, p) := (w.worker.name, w.worker.pod);
    var (w', gone) := (PatchPod(w), NodeLabel(p.kernel, p.moduleName.value));
    assert Follows(p, Latest(w, name));
    hide PodAgrees, IsReadyLabel, NodeLabel;
    forall n, node, key | node in w'.nodes && key in w'.nodes[node] && Backs(w, n, node, key)
      ensures Backs(w', n, node, key)
    {
      assert n != name || key != gone;
    }
    StaysBacked(w, w');
  }

  /** The finalizer goes only when the label it backed is gone from the node. */
  lemma UnfinalizeKeepsInv(w: World)
    requires Inv(w) && w.worker.Unfinalize?
    ensures Inv(PatchPod(w))
  {
    var (name, w') := (w.worker.name, PatchPod(w));
    if w'.versions != w.versions {
      AppendVersion(w, w', name, Latest(w, name).(finalizer := false));
    }
    UnfinalizeKeepsLabels(w);
  }

  lemma {:induction false} RunKeepsInv(run: seq<World>, i: nat)
    requires IsRun(run) && i < |run|
    ensures Inv(run[i])
  {
    if i > 0 {
      RunKeepsInv(run, i - 1);
      var w, w' := run[i - 1], run[i];
      if EnvStep(w, w') {
        if name, p :| CreatePod(w, w', name, p) { CreatePodKeepsInv(w, w', name, p); }
        else if name, p :| ChangePod(w, w', name, p) { ChangePodKeepsInv(w, w', name, p); }
        else if name :| DropPod(w, w', name) { DropPodKeepsInv(w, w', name); }
        else if node, labels :| ChangeNode(w, w', node, labels) { ChangeNodeKeepsInv(w, w', node, labels); }
        else { var node :| RemoveNode(w, w', node); RemoveNodeKeepsInv(w, w', node); }
      } else {
        WorkerStepKeepsInv(w, w');
      }
    }
  }

  lemma WorkerStepKeepsInv(w: World, w': World)
    requires Inv(w) && WorkerStep(w, w')
    ensures Inv(w')
  {
    if name, i :| ReadPod(w, w', name, i) { ReadPodKeepsInv(w, w', name, i); }
    else if w' == w.(worker := Idle) { StaysBacked(w, w'); }
    else if w.worker.Unlabel? || w.worker.Label? { ReadNodeKeepsInv(w); }
    else if w.worker.LabelRead? { LabelKeepsInv(w); }
    else if w.worker.UnlabelRead? { UnlabelKeepsInv(w); }
    else { UnfinalizeKeepsInv(w); }
  }

  // ---- What a ready label means ------------------------------------------------------------------------

  /** A module-loader pod, or a device-plugin pod, of module m that exists on the node with its finalizer. */
  ghost predicate HeldPod(w: World, name: string, node: string, m: string, devicePlugin: bool) {
    && name in w.live && name in w.versions && w.versions[name] != []
    && Latest(w, name).node == node && Latest(w, name).moduleName == Some(m)
    && (Latest(w, name).kernel == "" <==> devicePlugin) && Latest(w, name).finalizer
  }

  lemma BackingPodIsOfTheModule(w: World, name: string, node: string, m: string, devicePlugin: bool)
    requires Backs(w, name, node, if devicePlugin then DevicePluginLabel(m) else DriverLabel(m))
    ensures HeldPod(w, name, node, m, devicePlugin)
  {
    var p := Latest(w, name);
    LabelNamesAreUnambiguous(p.moduleName.value, m);
    LabelNamesAreUnambiguous(m, p.moduleName.value);
  }

  /**
   In every state of every run, a node carries a module's ready label only while a pod of that module and of that kind
   exists on it with its finalizer, however many pods share the label and wherever in Reconcile the worker is.
   */
  lemma ReadyLabelMeansPod(run: seq<World>, i: nat, node: string, m: string, devicePlugin: bool)
    requires IsRun(run) && i < |run| && node in run[i].nodes
    requires (if devicePlugin then DevicePluginLabel(m) else DriverLabel(m)) in run[i].nodes[node]
    ensures exists name :: HeldPod(run[i], name, node, m, devicePlugin)
  {
    RunKeepsInv(run, i);
    var key := if devicePlugin then DevicePluginLabel(m) else DriverLabel(m);
    assert IsReadyLabel(key);
    var name :| Backs(run[i], name, node, key);
    BackingPodIsOfTheModule(run[i], name, node, m, devicePlugin);
  }

  // ---- What one reconciliation does --------------------------------------------------------------------

  /** The API call the worker makes next succeeds, and nothing else happens meanwhile. */
  ghost predicate Proceeds(w: World, w': World) {
    || ((w.worker.Unlabel? || w.worker.Label?) && w' == ReadNode(w))
    || ((w.worker.UnlabelRead? || w.worker.LabelRead?) && w.worker.pod.moduleName.Some? && w' == PatchNode(w))
    || (w.worker.Unfinalize? && w' == PatchPod(w))
  }

  /** One whole Reconcile of the i-th version of a pod, left to itself: from the Get to the return. */
  ghost predicate Undisturbed(trace: seq<World>, name: string, i: nat) {
    && |trace| >= 2 && ReadPod(trace[0], trace[1], name, i)
    && (forall k :: 1 < k < |trace| ==> Proceeds(trace[k - 1], trace[k]))
    && forall k :: 1 <= k < |trace| ==> (trace[k].worker.Idle? <==> k == |trace| - 1)
  }

  /** Every pod can be reconciled undisturbed, in four API calls at most. */
  lemma ReconcileEnds(w: World, name: string, i: nat) returns (trace: seq<World>)
    requires w.worker.Idle? && name in w.versions && name in w.seen && w.seen[name] <= i < |w.versions[name]|
    ensures Undisturbed(trace, name, i) && trace[0] == w && |trace| <= 5
  {
    var p := w.versions[name][i];
    var w1 := w.(seen := w.seen[name := i],
                 worker := if p.moduleName.None? then Idle
                           else if !p.ready || p.deleting then Unlabel(name, p) else Label(name, p));
    trace := [w, w1];
    if !w1.worker.Idle? {
      trace := trace + [ReadNode(w1)];
      if !trace[2].worker.Idle? {
        trace := trace + [PatchNode(trace[2])];
        if !trace[3].worker.Idle? { trace := trace + [PatchPod(trace[3])]; }
      }
    }
  }

  /** Such a reconciliation is one of the ways a run can go on. */
  lemma UndisturbedContinues(run: seq<World>, trace: seq<World>, name: string, i: nat)
    requires IsRun(run) && Undisturbed(trace, name, i) && trace[0] == run[|run| - 1]
    ensures IsRun(run + trace[1..])
  {
    var longer := run + trace[1..];
    forall j | |run| <= j < |longer| ensures WorkerStep(longer[j - 1], longer[j]) {
      var k := j - |run| + 1;
      assert longer[j] == trace[k] && longer[j - 1] == trace[k - 1];
      hide ReadNode, PatchNode, PatchPod;
    }
  }

  /** The node's labels after the pod p of module m was reconciled: one label is added, or one is taken away. */
  ghost predicate Labelled(before: set<string>, after: set<string>, p: Pod, m: string) {
    var key := PREFIX + m + (if p.kernel == "" then ".device-plugin-ready" else ".ready");
    after == if p.ready && !p.deleting then before + {key} else before - {key}
  }

  /** A version without the finalizer was appended to the pod, if it still exists and had one when it was read. */
  ghost predicate Unfinalized(w: World, w': World, name: string, p: Pod)
    requires name in w.versions && w.versions[name] != []
  {
    w'.versions == if name in w.live && p.finalizer
                   then w.versions[name := w.versions[name] + [Latest(w, name).(finalizer := false)]] else w.versions
  }

  /**
   Reconciling a pod leaves its node with exactly one label more if the pod was ready and not being deleted, and with
   that label gone otherwise; only then, and only for a pod being deleted, the finalizer goes. A pod without a module
   name and a pod whose node does not exist change nothing.
   */
  lemma ReconcileSettlesNode(trace: seq<World>, name: string, i: nat)
    requires Undisturbed(trace, name, i)
    ensures var (w, w') := (trace[0], trace[|trace| - 1]); var p := w.versions[name][i];
      && w'.live == w.live && w'.seen == w.seen[name := i] && w'.nodes.Keys == w.nodes.Keys
      && (forall n :: n in w.nodes && n != p.node ==> w'.nodes[n] == w.nodes[n])
      && (p.moduleName.None? || p.node !in w.nodes ==> w'.nodes == w.nodes && w'.versions == w.versions)
      && (p.moduleName.Some? && p.node in w.nodes ==>
        && Labelled(w.nodes[p.node], w'.nodes[p.node], p, p.moduleName.value)
        && (!p.deleting ==> w'.versions == w.versions)
        && (p.deleting ==> Unfinalized(w, w', name, p)))
  {
    var w := trace[0].(seen := trace[0].seen[name := i]);
    assert trace[1] == w.(worker := trace[1].worker);
    if |trace| > 2 {
      assert Proceeds(trace[1], trace[2]) && trace[2] == w.(worker := trace[2].worker);
      if |trace| > 3 {
        assert Proceeds(trace[2], trace[3]) && trace[3] == w.(nodes := trace[3].nodes, worker := trace[3].worker);
        if |trace| > 4 {
          assert Proceeds(trace[3], trace[4]) && trace[4].nodes == trace[3].nodes;
        }
      }
    }
  }
}
