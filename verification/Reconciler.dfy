/**
 One pass of the Module reconciler over the cluster's DaemonSets (controllers/module_reconciler.go,
 internal/daemonset/daemonset.go): which nodes and kernels it targets, what it creates, patches and deletes.

 The pass reads the DaemonSets once, at its start; nobody else writes them meanwhile. A generated name is one no
 DaemonSet has. Any API call may fail and ends the pass there.
 */
module Reconciler {
  import opened Base
  import opened Text
  import opened KernelMapper
  import opened Hub
  import opened PodLabeler

  const KERNEL_LABEL := "kmm.node.kubernetes.io/kernel-version.full"

  const NODE_LABELER_FINALIZER := "kmm.node.kubernetes.io/node-labeler"

  /**
   moduleName and kernel are labels of the DaemonSet and of its pods; an empty kernel label marks the device plugin.
   podFinalizers are those its pods are created with.
   */
  datatype DaemonSet = DaemonSet(
    moduleName: string, kernel: string, image: string, nodeSelector: map<string, string>, podFinalizers: seq<string>)

  type DaemonSets = map<string, DaemonSet>

  function DevicePluginName(moduleName: string): string {
    moduleName + "-device-plugin"
  }

  /** SetDriverContainerAsDesired; it refuses an empty image or kernel. */
  function DesiredDriver(mld: ModuleLoaderData): (r: Option<DaemonSet>)
    ensures r.Some? ==> r.value.kernel == mld.kernelVersion != "" && r.value.image == mld.containerImage != ""
  {
    if mld.containerImage == "" || mld.kernelVersion == "" then None
    else Some(DaemonSet(mld.name, mld.kernelVersion, mld.containerImage,
                        mld.selector[KERNEL_LABEL := mld.kernelVersion], [NODE_LABELER_FINALIZER]))
  }

  predicate Driver(ds: DaemonSet, m: string) {
    ds.moduleName == m && ds.kernel != ""
  }

  function DriverKernels(all: DaemonSets, m: string): set<string> {
    set n | n in all && Driver(all[n], m) :: all[n].kernel
  }

  /** At most one DaemonSet per kernel, and the one without a kernel is the device plugin by its name. */
  ghost predicate OnePerKernel(all: DaemonSets, m: string) {
    DevicePluginByName(all, m) && forall a, b :: a in all && b in all && SameKernel(all[a], all[b], m) ==> a == b
  }

  predicate SameKernel(a: DaemonSet, b: DaemonSet, m: string) {
    a.moduleName == m && b.moduleName == m && a.kernel == b.kernel
  }

  ghost predicate HasTwins(all: DaemonSets, m: string) {
    exists a, b :: a in all && b in all && a != b && SameKernel(all[a], all[b], m)
  }

  ghost predicate DevicePluginByName(all: DaemonSets, m: string) {
    && (forall n :: n in all && all[n].moduleName == m ==> (all[n].kernel == "" <==> n == DevicePluginName(m)))
    && (DevicePluginName(m) in all ==> all[DevicePluginName(m)].moduleName == m)
  }

  /** The result of ModuleDaemonSetsByKernelVersion. */
  ghost predicate IsIndex(index: map<string, string>, all: DaemonSets, m: string) {
    && (forall k :: k in index ==> index[k] in all && all[index[k]].moduleName == m && all[index[k]].kernel == k)
    && (forall n :: n in all && all[n].moduleName == m ==> all[n].kernel in index && index[all[n].kernel] == n)
  }

  /** The kernels whose build and signing are done, or not needed, in this pass. */
  function CompletedKernels(
    mlds: map<string, ModuleLoaderData>, build: ModuleLoaderData -> Progress, sign: ModuleLoaderData -> Progress)
    : set<string>
  {
    set k | k in mlds && build(mlds[k]) == Completed && sign(mlds[k]) == Completed
  }

  /** The mappings of one module, keyed by kernel. */
  ghost predicate MappingsOf(mlds: map<string, ModuleLoaderData>, m: string) {
    forall k :: k in mlds ==> mlds[k].kernelVersion == k && mlds[k].name == m
  }

  // ---- What a pass does to the DaemonSets ----------------------------------------------------------------

  /** Only drivers of kernels in done were created or changed, and a driver keeps its kernel. */
  ghost predicate Grown(before: DaemonSets, now: DaemonSets, m: string, done: set<string>) {
    && before.Keys <= now.Keys
    && (forall n :: n in before && !(Driver(before[n], m) && before[n].kernel in done) ==> now[n] == before[n])
    && (forall n :: n in before && Driver(before[n], m) ==> Driver(now[n], m) && now[n].kernel == before[n].kernel)
    && (forall n :: n in now && n !in before ==> Driver(now[n], m) && now[n].kernel in done)
  }

  /** The drivers of the kernels in done are as their mappings want them. */
  ghost predicate AsDesired(now: DaemonSets, m: string, mlds: map<string, ModuleLoaderData>, done: set<string>) {
    forall n :: n in now && Driver(now[n], m) && now[n].kernel in done ==>
      now[n].kernel in mlds && DesiredDriver(mlds[now[n].kernel]) == Some(now[n])
  }

  /** now is before with the kernels in done created or patched as desired, and nothing else changed. */
  ghost predicate Written(before: DaemonSets, now: DaemonSets, m: string, mlds: map<string, ModuleLoaderData>,
                          done: set<string>)
  {
    Grown(before, now, m, done) && AsDesired(now, m, mlds, done) && done <= DriverKernels(now, m) &&
      OnePerKernel(now, m)
  }

  /** after is now, some drivers of kernels that are not valid removed. */
  ghost predicate Thinned(now: DaemonSets, after: DaemonSets, m: string, valid: set<string>) {
    && (forall n :: n in after ==> n in now && after[n] == now[n])
    && (forall n :: n in now && n !in after ==> Driver(now[n], m) && now[n].kernel !in valid)
  }

  /** All of them are removed. */
  ghost predicate Collected(now: DaemonSets, after: DaemonSets, m: string, valid: set<string>) {
    Thinned(now, after, m, valid) && forall n :: n in after && Driver(after[n], m) ==> after[n].kernel in valid
  }

  /** The slot a driver for kernel k is written to: the DaemonSet found for it at the start, or a new name. */
  ghost predicate SlotFor(before: DaemonSets, now: DaemonSets, m: string, k: string, n: string) {
    && n != DevicePluginName(m)
    && if n in now then n in before && Driver(now[n], m) && now[n].kernel == k else k !in DriverKernels(now, m)
  }

  lemma OnlySlot(before: DaemonSets, now: DaemonSets, m: string, k: string, n: string)
    requires OnePerKernel(now, m) && SlotFor(before, now, m, k, n)
    ensures forall x :: x in now && x != n && Driver(now[x], m) ==> now[x].kernel != k
  {
    forall x | x in now && x != n && Driver(now[x], m) ensures now[x].kernel != k {
      assert now[x].kernel in DriverKernels(now, m);
      if n in now { assert !SameKernel(now[x], now[n], m); }
    }
  }

  lemma WriteKeepsOne(before: DaemonSets, now: DaemonSets, m: string, k: string, n: string, ds: DaemonSet)
    requires OnePerKernel(now, m) && SlotFor(before, now, m, k, n) && Driver(ds, m) && ds.kernel == k
    ensures OnePerKernel(now[n := ds], m)
  {
    OnlySlot(before, now, m, k, n);
  }

  lemma WriteGrows(before: DaemonSets, now: DaemonSets, m: string, done: set<string>, k: string, n: string,
                   ds: DaemonSet)
    requires Grown(before, now, m, done) && SlotFor(before, now, m, k, n) && Driver(ds, m) && ds.kernel == k
    ensures Grown(before, now[n := ds], m, done + {k})
  {
  }

  lemma WriteOne(before: DaemonSets, now: DaemonSets, m: string, mlds: map<string, ModuleLoaderData>, done: set<string>,
                 k: string, n: string)
    requires MappingsOf(mlds, m) && k in mlds && DesiredDriver(mlds[k]).Some?
    requires Written(before, now, m, mlds, done) && SlotFor(before, now, m, k, n)
    ensures Written(before, now[n := DesiredDriver(mlds[k]).value], m, mlds, done + {k})
  {
    var ds := DesiredDriver(mlds[k]).value;
    var now' := now[n := ds];
    WriteKeepsOne(before, now, m, k, n, ds);
    assert done + {k} <= DriverKernels(now', m) by { WriteCovers(before, now, m, done, k, n, ds); }
    assert AsDesired(now', m, mlds, done + {k}) by { OnlySlot(before, now, m, k, n); }
    WriteGrows(before, now, m, done, k, n, ds);
  }

  lemma WriteCovers(before: DaemonSets, now: DaemonSets, m: string, done: set<string>, k: string, n: string,
                    ds: DaemonSet)
    requires done <= DriverKernels(now, m) && SlotFor(before, now, m, k, n) && Driver(ds, m) && ds.kernel == k
    ensures done + {k} <= DriverKernels(now[n := ds], m)
  {
    forall j | j in done + {k} ensures j in DriverKernels(now[n := ds], m) {
      if j in done {
        var x :| x in now && Driver(now[x], m) && now[x].kernel == j;
        assert x in now[n := ds] && Driver(now[n := ds][x], m) && now[n := ds][x].kernel == j;
      } else {
        assert now[n := ds][n] == ds;
      }
    }
  }

  /** The index still points at the DaemonSets it was made from. */
  ghost predicate Points(index: map<string, string>, now: DaemonSets, m: string) {
    forall k :: k in index ==> index[k] in now && now[index[k]].moduleName == m && now[index[k]].kernel == k
  }

  /** Every driver that may have to go is in the index. */
  ghost predicate IndexesInvalid(index: map<string, string>, now: DaemonSets, m: string, valid: set<string>) {
    forall n :: n in now && Driver(now[n], m) && now[n].kernel !in valid ==>
      now[n].kernel in index && index[now[n].kernel] == n
  }

  /** The invalid kernels of the index outside todo are gone, the ones in todo are still there. */
  ghost predicate GoneSoFar(index: map<string, string>, after: DaemonSets, valid: set<string>, todo: set<string>) {
    forall k :: k in index ==>
      (if k in todo then index[k] in after else k != "" && k !in valid ==> index[k] !in after)
  }

  lemma ThinOne(index: map<string, string>, now: DaemonSets, after: DaemonSets, m: string, valid: set<string>,
                todo: set<string>, k: string)
    requires Points(index, now, m) && k in index && k !in todo && k != "" && k !in valid
    requires Thinned(now, after, m, valid) && GoneSoFar(index, after, valid, todo + {k})
    ensures Thinned(now, after - {index[k]}, m, valid) && GoneSoFar(index, after - {index[k]}, valid, todo)
  {
    forall j | j in index && j != k ensures index[j] != index[k] {
      assert now[index[j]].kernel == j && now[index[k]].kernel == k;
    }
  }

  lemma NothingGone(index: map<string, string>, now: DaemonSets, m: string, valid: set<string>)
    requires Points(index, now, m)
    ensures Thinned(now, now, m, valid) && GoneSoFar(index, now, valid, index.Keys)
  {
  }

  lemma StillThere(index: map<string, string>, now: DaemonSets, after: DaemonSets, m: string, valid: set<string>,
                   todo: set<string>, k: string)
    requires Points(index, now, m) && Thinned(now, after, m, valid) && GoneSoFar(index, after, valid, todo)
    requires k in index && k in todo
    ensures index[k] in after && after[index[k]].kernel == k
  {
  }

  lemma KeepOne(index: map<string, string>, after: DaemonSets, valid: set<string>, todo: set<string>, k: string)
    requires GoneSoFar(index, after, valid, todo + {k}) && (k == "" || k in valid)
    ensures GoneSoFar(index, after, valid, todo)
  {
  }

  lemma AllGone(index: map<string, string>, now: DaemonSets, after: DaemonSets, m: string, valid: set<string>)
    requires IndexesInvalid(index, now, m, valid) && Thinned(now, after, m, valid) && GoneSoFar(index, after, valid, {})
    ensures Collected(now, after, m, valid)
  {
  }

  lemma ThinnedStaysOne(now: DaemonSets, after: DaemonSets, m: string, valid: set<string>)
    requires OnePerKernel(now, m) && Thinned(now, after, m, valid)
    ensures OnePerKernel(after, m)
  {
  }

  lemma ThinnedStaysWithin(now: DaemonSets, after: DaemonSets, m: string, valid: set<string>)
    requires Thinned(now, after, m, valid)
    ensures after.Keys <= now.Keys
  {
  }

  // ---- The pass ------------------------------------------------------------------------------------------

  lemma {:induction false} LongerThanAll(names: set<string>) returns (n: nat)
    ensures forall s :: s in names ==> |s| < n
  {
    if names == {} {
      n := 0;
    } else {
      var x :| x in names;
      n := LongerThanAll(names - {x});
      n := if |x| < n then n else |x| + 1;
    }
  }

  /** There is always a name for the API server to generate. */
  lemma FreshNameExists(names: set<string>)
    ensures exists s: string :: s !in names
  {
    var n := LongerThanAll(names);
    var s: string := seq(n, _ => 'x');
    assert s !in names;
  }

  /** In every one of these states there is one DaemonSet per kernel, every DaemonSet of low, and none outside high. */
  ghost predicate AllOne(states: seq<DaemonSets>, m: string, low: set<string>, high: set<string>) {
    forall i :: 0 <= i < |states| ==> OnePerKernel(states[i], m) && low <= states[i].Keys <= high
  }

  lemma OneMoreState(states: seq<DaemonSets>, start: nat, low: set<string>, high: set<string>, state: DaemonSets,
                     m: string, low': set<string>, high': set<string>)
    requires start <= |states| && AllOne(states[start..], m, low, high) && OnePerKernel(state, m)
    requires low' <= low && high <= high' && low' <= state.Keys <= high'
    ensures AllOne((states + [state])[start..], m, low', high')
  {
  }

  /**
   One DaemonSet per kernel all along; whatever existed on the way and is gone was an outdated driver from before; and
   what was there before and is there after was there all along.
   */
  ghost predicate EachStateSafe(states: seq<DaemonSets>, before: DaemonSets, after: DaemonSets, m: string,
                                valid: set<string>)
  {
    forall i :: 0 <= i < |states| ==>
      OnePerKernel(states[i], m) && before.Keys * after.Keys <= states[i].Keys &&
        OnlyOutdatedGone(states[i], before, after, m, valid)
  }

  ghost predicate OnlyOutdatedGone(state: DaemonSets, before: DaemonSets, after: DaemonSets, m: string,
                                   valid: set<string>)
  {
    forall n :: n in state && n !in after ==> n in before && Driver(before[n], m) && before[n].kernel !in valid
  }

  /** While DaemonSets are only added, every state is safe. */
  lemma GrowingIsSafe(states: seq<DaemonSets>, before: DaemonSets, after: DaemonSets, m: string, valid: set<string>)
    requires AllOne(states, m, before.Keys, after.Keys)
    ensures EachStateSafe(states, before, after, m, valid)
  {
  }

  lemma DevicePluginState(states: seq<DaemonSets>, start: nat, low: set<string>, now: DaemonSets, now': DaemonSets,
                          states': seq<DaemonSets>, m: string)
    requires start <= |states| && AllOne(states[start..], m, low, now.Keys) && low <= now.Keys
    requires OnePerKernel(now', m) && now.Keys <= now'.Keys && (states' == states || states' == states + [now'])
    ensures AllOne(states'[start..], m, low, now'.Keys)
  {
  }

  lemma JoinStates(states: seq<DaemonSets>, start: nat, low: set<string>, states': seq<DaemonSets>, m: string,
                   low': set<string>, high: set<string>)
    requires start <= |states| && states <= states'
    requires AllOne(states[start..], m, low, high) && AllOne(states'[|states|..], m, low', high)
    ensures AllOne(states'[start..], m, low * low', high)
  {
    assert states'[start..] == states[start..] + states'[|states|..];
  }

  lemma IndexStillPoints(index: map<string, string>, before: DaemonSets, now: DaemonSets, m: string,
                         devicePlugin: Option<string>, mlds: map<string, ModuleLoaderData>, done: set<string>)
    requires IsIndex(index, before, m) && DevicePluginByName(before, m) && Written(before, now, m, mlds, done)
    ensures Points(index, WithDevicePlugin(now, m, devicePlugin), m)
  {
    hide AsDesired, OnePerKernel, DriverKernels;
  }

  lemma IndexStillComplete(index: map<string, string>, before: DaemonSets, now: DaemonSets, m: string,
                           devicePlugin: Option<string>, mlds: map<string, ModuleLoaderData>, done: set<string>)
    requires IsIndex(index, before, m) && Written(before, now, m, mlds, done) && done <= mlds.Keys
    ensures IndexesInvalid(index, WithDevicePlugin(now, m, devicePlugin), m, mlds.Keys)
  {
    hide AsDesired, OnePerKernel, DriverKernels;
  }

  lemma IndexStillGood(index: map<string, string>, before: DaemonSets, now: DaemonSets, m: string,
                       devicePlugin: Option<string>, mlds: map<string, ModuleLoaderData>, done: set<string>)
    requires IsIndex(index, before, m) && DevicePluginByName(before, m) && Written(before, now, m, mlds, done)
    requires done <= mlds.Keys
    ensures var now' := WithDevicePlugin(now, m, devicePlugin);
      Points(index, now', m) && IndexesInvalid(index, now', m, mlds.Keys)
  {
    IndexStillPoints(index, before, now, m, devicePlugin, mlds, done);
    IndexStillComplete(index, before, now, m, devicePlugin, mlds, done);
    hide Points, IndexesInvalid;
  }

  lemma OnlyInvalidVanish(states: seq<DaemonSets>, before: DaemonSets, now: DaemonSets, after: DaemonSets, m: string,
                          devicePlugin: Option<string>, mlds: map<string, ModuleLoaderData>, done: set<string>)
    requires DevicePluginByName(before, m) && Written(before, now, m, mlds, done) && done <= mlds.Keys
    requires Thinned(WithDevicePlugin(now, m, devicePlugin), after, m, mlds.Keys)
    requires AllOne(states, m, before.Keys * after.Keys, WithDevicePlugin(now, m, devicePlugin).Keys)
    ensures EachStateSafe(states, before, after, m, mlds.Keys)
  {
    forall i | 0 <= i < |states| ensures OnlyOutdatedGone(states[i], before, after, m, mlds.Keys) {
      OnlyInvalidGone(states[i], before, now, after, m, devicePlugin, mlds, done);
    }
  }

  lemma OnlyInvalidGone(state: DaemonSets, before: DaemonSets, now: DaemonSets, after: DaemonSets, m: string,
                        devicePlugin: Option<string>, mlds: map<string, ModuleLoaderData>, done: set<string>)
    requires DevicePluginByName(before, m) && Written(before, now, m, mlds, done) && done <= mlds.Keys
    requires Thinned(WithDevicePlugin(now, m, devicePlugin), after, m, mlds.Keys)
    requires state.Keys <= WithDevicePlugin(now, m, devicePlugin).Keys
    ensures OnlyOutdatedGone(state, before, after, m, mlds.Keys)
  {
  }

  lemma FoundSlot(index: map<string, string>, before: DaemonSets, now: DaemonSets, m: string, done: set<string>,
                  k: string, n: string)
    requires IsIndex(index, before, m) && Grown(before, now, m, done) && OnePerKernel(now, m) && k !in done && k != ""
    requires if k in index then n == index[k] else n !in now && n != DevicePluginName(m)
    ensures SlotFor(before, now, m, k, n)
  {
  }

  /** Nothing but a failing API call can make handling this mapping fail. */
  predicate Handleable(build: ModuleLoaderData -> Progress, sign: ModuleLoaderData -> Progress, mld: ModuleLoaderData) {
    var progress := KernelProgress(build, sign, mld);
    progress != Errored && (progress == Completed ==> DesiredDriver(mld).Some?)
  }

  /** Neither building nor signing erred, and a DaemonSet that is due has an image and a kernel. */
  lemma HandleableMeans(build: ModuleLoaderData -> Progress, sign: ModuleLoaderData -> Progress, mld: ModuleLoaderData)
    ensures Handleable(build, sign, mld) <==>
      && build(mld) != Errored && (build(mld) == Completed ==> sign(mld) != Errored)
      && (build(mld) == Completed && sign(mld) == Completed ==> mld.containerImage != "" && mld.kernelVersion != "")
  {
  }

  /** The mappings outside todo have been handled without an error, and done are the completed ones among them. */
  ghost predicate Handled(mlds: map<string, ModuleLoaderData>, build: ModuleLoaderData -> Progress,
                          sign: ModuleLoaderData -> Progress, todo: set<string>, done: set<string>)
  {
    && done !! todo
    && forall k :: k in mlds && k !in todo ==>
         Handleable(build, sign, mlds[k]) && (k in done <==> KernelProgress(build, sign, mlds[k]) == Completed)
  }

  lemma HandledOneMore(mlds: map<string, ModuleLoaderData>, build: ModuleLoaderData -> Progress,
                       sign: ModuleLoaderData -> Progress, todo: set<string>, done: set<string>, k: string)
    requires Handled(mlds, build, sign, todo, done) && k in todo && k in mlds && Handleable(build, sign, mlds[k])
    ensures var done' := if KernelProgress(build, sign, mlds[k]) == Completed then done + {k} else done;
      Handled(mlds, build, sign, todo - {k}, done')
  {
  }

  ghost predicate AllHandleable(mlds: map<string, ModuleLoaderData>, build: ModuleLoaderData -> Progress,
                                sign: ModuleLoaderData -> Progress)
  {
    forall k :: k in mlds ==> Handleable(build, sign, mlds[k])
  }

  lemma AllHandled(mlds: map<string, ModuleLoaderData>, build: ModuleLoaderData -> Progress,
                   sign: ModuleLoaderData -> Progress, done: set<string>)
    requires done <= mlds.Keys && Handled(mlds, build, sign, {}, done)
    ensures done == CompletedKernels(mlds, build, sign) && AllHandleable(mlds, build, sign)
  {
  }

  class Cluster {
    var daemonSets: DaemonSets
    /** The DaemonSets after each API call that wrote them. */
    ghost var trace: seq<DaemonSets>
    /** Whether all API calls that write succeed. */
    const reliable: bool

    constructor (daemonSets: DaemonSets, reliable: bool)
      ensures this.daemonSets == daemonSets && trace == [] && this.reliable == reliable
    {
      this.daemonSets := daemonSets;
      this.reliable := reliable;
      trace := [];
    }

    /** ModuleDaemonSetsByKernelVersion: None when the list fails or two DaemonSets of the module share a kernel. */
    method ModuleDaemonSetsByKernelVersion(m: string, listFails: bool) returns (index: Option<map<string, string>>)
      ensures index.Some? ==> IsIndex(index.value, daemonSets, m)
      ensures index.None? <==> listFails || HasTwins(daemonSets, m)
    {
      if listFails {
        return None;
      }
      var byKernel: map<string, string> := map[];
      var todo := set n | n in daemonSets && daemonSets[n].moduleName == m;
      while todo != {}
        invariant forall n :: n in todo ==> n in daemonSets && daemonSets[n].moduleName == m
        invariant forall k :: k in byKernel ==>
          byKernel[k] in daemonSets && byKernel[k] !in todo && daemonSets[byKernel[k]].moduleName == m &&
            daemonSets[byKernel[k]].kernel == k
        invariant forall n :: n in daemonSets && daemonSets[n].moduleName == m && n !in todo ==>
          daemonSets[n].kernel in byKernel && byKernel[daemonSets[n].kernel] == n
        decreases |todo|
      {
        var n :| n in todo;
        todo := todo - {n};
        var kernelVersion := daemonSets[n].kernel;
        if kernelVersion in byKernel {
          assert SameKernel(daemonSets[n], daemonSets[byKernel[kernelVersion]], m);
          return None;
        }
        byKernel := byKernel[kernelVersion := n];
      }
      return Some(byKernel);
    }

    /** handleDriverContainer: patch the DaemonSet found at the start of the pass, or create one. */
    method HandleDriverContainer(mld: ModuleLoaderData, index: map<string, string>, ghost before: DaemonSets,
                                 ghost mlds: map<string, ModuleLoaderData>, ghost done: set<string>) returns (ok: bool)
      requires MappingsOf(mlds, mld.name) && mld.kernelVersion in mlds && mlds[mld.kernelVersion] == mld
      requires IsIndex(index, before, mld.name) && Written(before, daemonSets, mld.name, mlds, done)
      requires mld.kernelVersion !in done
      modifies this
      ensures ok ==> Written(before, daemonSets, mld.name, mlds, done + {mld.kernelVersion})
      ensures ok ==> trace == old(trace) + [daemonSets] && old(daemonSets.Keys) <= daemonSets.Keys
      ensures !ok ==> daemonSets == old(daemonSets) && trace == old(trace)
      ensures if ok then DesiredDriver(mld).Some? else reliable ==> DesiredDriver(mld).None?
    {
      var desired := DesiredDriver(mld);
      var fails: bool := *;
      if desired.None? || (fails && !reliable) {
        return false;
      }
      var name: string;
      if mld.kernelVersion in index {
        name := index[mld.kernelVersion];
      } else {
        FreshNameExists(daemonSets.Keys + {DevicePluginName(mld.name)});
        name :| name !in daemonSets.Keys + {DevicePluginName(mld.name)};
      }
      FoundSlot(index, before, daemonSets, mld.name, done, mld.kernelVersion, name);
      WriteOne(before, daemonSets, mld.name, mlds, done, mld.kernelVersion, name);
      daemonSets := daemonSets[name := desired.value];
      trace := trace + [daemonSets];
      return true;
    }

    /** handleDevicePlugin. */
    method HandleDevicePlugin(m: string, devicePlugin: Option<string>) returns (ok: bool)
      requires OnePerKernel(daemonSets, m)
      modifies this
      ensures ok ==> daemonSets == WithDevicePlugin(old(daemonSets), m, devicePlugin)
      ensures !ok ==> daemonSets == old(daemonSets)
      ensures OnePerKernel(daemonSets, m) && old(daemonSets.Keys) <= daemonSets.Keys
      ensures trace == old(trace) || trace == old(trace) + [daemonSets]
      ensures reliable ==> ok
    {
      if devicePlugin.None? {
        return true;
      }
      var fails: bool := *;
      if fails && !reliable {
        return false;
      }
      var name := DevicePluginName(m);
      var (image, selector) := (devicePlugin.value, map[DriverLabel(m) := ""]);
      if name in daemonSets {
        daemonSets := daemonSets[name := daemonSets[name].(
          moduleName := m, image := image, nodeSelector := selector, podFinalizers := [NODE_LABELER_FINALIZER])];
      } else {
        daemonSets := daemonSets[name := DaemonSet(m, "", image, selector, [NODE_LABELER_FINALIZER])];
      }
      trace := trace + [daemonSets];
      return true;
    }

    /** One round of the loop over the mappings: build, then sign, then deploy. */
    method HandleMapping(mld: ModuleLoaderData, index: map<string, string>, build: ModuleLoaderData -> Progress,
                         sign: ModuleLoaderData -> Progress, ghost before: DaemonSets, ghost start: nat,
                         ghost mlds: map<string, ModuleLoaderData>, ghost done: set<string>) returns (ok: bool)
      requires MappingsOf(mlds, mld.name) && mld.kernelVersion in mlds && mlds[mld.kernelVersion] == mld
      requires IsIndex(index, before, mld.name) && Written(before, daemonSets, mld.name, mlds, done)
      requires mld.kernelVersion !in done && start <= |trace| &&
        AllOne(trace[start..], mld.name, before.Keys, daemonSets.Keys)
      modifies this
      ensures var complete := build(mld) == Completed && sign(mld) == Completed;
        && (if ok then Handleable(build, sign, mld) else reliable ==> !Handleable(build, sign, mld))
        && (ok && complete ==> Written(before, daemonSets, mld.name, mlds, done + {mld.kernelVersion}))
        && (!ok || !complete ==> daemonSets == old(daemonSets) && trace == old(trace))
      ensures old(trace) <= trace && AllOne(trace[start..], mld.name, before.Keys, daemonSets.Keys)
    {
      if build(mld) == Completed && sign(mld) == Completed {
        ghost var (earlier, names) := (trace, daemonSets.Keys);
        ok := HandleDriverContainer(mld, index, before, mlds, done);
        if ok {
          OneMoreState(earlier, start, before.Keys, names, daemonSets, mld.name, before.Keys, daemonSets.Keys);
        }
      } else {
        ok := KernelProgress(build, sign, mld) != Errored;
      }
    }

    /** The loop of Reconcile over the mappings, in any order. */
    method DeployCompleted(m: string, index: map<string, string>, mlds: map<string, ModuleLoaderData>,
                           build: ModuleLoaderData -> Progress, sign: ModuleLoaderData -> Progress) returns (ok: bool)
      requires MappingsOf(mlds, m) && IsIndex(index, daemonSets, m) && OnePerKernel(daemonSets, m)
      modifies this
      ensures exists done :: done <= mlds.Keys && Written(old(daemonSets), daemonSets, m, mlds, done)
      ensures ok ==> Written(old(daemonSets), daemonSets, m, mlds, CompletedKernels(mlds, build, sign))
      ensures if ok then AllHandleable(mlds, build, sign) else reliable ==> !AllHandleable(mlds, build, sign)
      ensures old(trace) <= trace && AllOne(trace[|old(trace)|..], m, old(daemonSets.Keys), daemonSets.Keys)
    {
      ghost var (before, start, done) := (daemonSets, |trace|, {});
      var todo := mlds.Keys;
      while todo != {}
        invariant todo <= mlds.Keys && done <= mlds.Keys && Written(before, daemonSets, m, mlds, done)
        invariant Handled(mlds, build, sign, todo, done)
        invariant old(trace) <= trace && AllOne(trace[start..], m, before.Keys, daemonSets.Keys)
        decreases |todo|
      {
        var k :| k in todo;
        ok := HandleMapping(mlds[k], index, build, sign, before, start, mlds, done);
        if !ok {
          return;
        }
        HandledOneMore(mlds, build, sign, todo, done, k);
        todo := todo - {k};
        if KernelProgress(build, sign, mlds[k]) == Completed {
          done := done + {k};
        }
      }
      AllHandled(mlds, build, sign, done);
      ok := true;
    }

    /** Reconcile, from the list of DaemonSets to their garbage collection. */
    method Reconcile(m: string, devicePlugin: Option<string>, mlds: map<string, ModuleLoaderData>,
                     build: ModuleLoaderData -> Progress, sign: ModuleLoaderData -> Progress, listFails: bool)
      returns (ok: bool)
      requires MappingsOf(mlds, m) && DevicePluginByName(daemonSets, m)
      modifies this
      ensures ok ==> Reconciled(old(daemonSets), daemonSets, m, devicePlugin, mlds, CompletedKernels(mlds, build, sign))
      ensures old(trace) <= trace && EachStateSafe(trace[|old(trace)|..], old(daemonSets), daemonSets, m, mlds.Keys)
      ensures reliable ==> (ok <==> !listFails && !HasTwins(old(daemonSets), m) && AllHandleable(mlds, build, sign))
    {
      ghost var (before, start) := (daemonSets, |trace|);
      var index := ModuleDaemonSetsByKernelVersion(m, listFails);
      if index.None? {
        return false;
      }
      ok := DeployCompleted(m, index.value, mlds, build, sign);
      ghost var done :| done <= mlds.Keys && Written(before, daemonSets, m, mlds, done)
                     && (ok ==> done == CompletedKernels(mlds, build, sign));
      if !ok {
        GrowingIsSafe(trace[start..], before, daemonSets, m, mlds.Keys);
        return;
      }
      ghost var (now, states) := (daemonSets, trace);
      ok := HandleDevicePlugin(m, devicePlugin);
      DevicePluginState(states, start, before.Keys, now, daemonSets, trace, m);
      if !ok {
        GrowingIsSafe(trace[start..], before, daemonSets, m, mlds.Keys);
        return;
      }
      ghost var (now', states') := (daemonSets, trace);
      IndexStillGood(index.value, before, now, m, devicePlugin, mlds, done);
      ok := GarbageCollect(m, index.value, mlds.Keys);
      JoinStates(states', start, before.Keys, trace, m, daemonSets.Keys, now'.Keys);
      OnlyInvalidVanish(trace[start..], before, now, daemonSets, m, devicePlugin, mlds, done);
      if ok {
        PassReconciles(before, now, daemonSets, m, devicePlugin, mlds, done);
      }
    }

    /** The Delete call of the client. */
    method Delete(name: string) returns (ok: bool)
      modifies this
      ensures if ok then daemonSets == old(daemonSets) - {name} && trace == old(trace) + [daemonSets]
              else daemonSets == old(daemonSets) && trace == old(trace)
      ensures reliable ==> ok
    {
      ok := *;
      if ok || reliable {
        ok := true;
        daemonSets := daemonSets - {name};
        trace := trace + [daemonSets];
      }
    }

    /** The DaemonSet part of garbageCollect, over the index read at the start of the pass. */
    method GarbageCollect(m: string, index: map<string, string>, validKernels: set<string>) returns (ok: bool)
      requires OnePerKernel(daemonSets, m)
      requires Points(index, daemonSets, m) && IndexesInvalid(index, daemonSets, m, validKernels)
      modifies this
      ensures Thinned(old(daemonSets), daemonSets, m, validKernels)
      ensures ok ==> Collected(old(daemonSets), daemonSets, m, validKernels)
      ensures old(trace) <= trace && AllOne(trace[|old(trace)|..], m, daemonSets.Keys, old(daemonSets.Keys))
      ensures reliable ==> ok
    {
      hide Points, Thinned, GoneSoFar, OnePerKernel, IndexesInvalid, Collected;
      ghost var (before, start) := (daemonSets, |trace|);
      var todo := index.Keys;
      NothingGone(index, before, m, validKernels);
      while todo != {}
        invariant todo <= index.Keys
        invariant Thinned(before, daemonSets, m, validKernels) && GoneSoFar(index, daemonSets, validKernels, todo)
        invariant old(trace) <= trace && AllOne(trace[start..], m, daemonSets.Keys, before.Keys)
        decreases |todo|
      {
        var kernelVersion :| kernelVersion in todo;
        StillThere(index, before, daemonSets, m, validKernels, todo, kernelVersion);
        assert todo == todo - {kernelVersion} + {kernelVersion};
        todo := todo - {kernelVersion};
        var name := index[kernelVersion];
        if daemonSets[name].kernel != "" && kernelVersion !in validKernels {
          ThinOne(index, before, daemonSets, m, validKernels, todo, kernelVersion);
          ThinnedStaysOne(before, daemonSets - {name}, m, validKernels);
          ThinnedStaysWithin(before, daemonSets - {name}, m, validKernels);
          ghost var rest := daemonSets - {name};
          OneMoreState(trace, start, daemonSets.Keys, before.Keys, rest, m, rest.Keys, before.Keys);
          ok := Delete(name);
          if !ok {
            return;
          }
        } else {
          KeepOne(index, daemonSets, validKernels, todo, kernelVersion);
        }
      }
      AllGone(index, before, daemonSets, m, validKernels);
      ok := true;
    }
  }

  /** The DaemonSets after the device plugin is created or patched. */
  function WithDevicePlugin(all: DaemonSets, m: string, devicePlugin: Option<string>): DaemonSets {
    if devicePlugin.None? then all
    else all[DevicePluginName(m) :=
      DaemonSet(m, "", devicePlugin.value, map[DriverLabel(m) := ""], [NODE_LABELER_FINALIZER])]
  }

  /**
   What a successful pass has done. The first line is the set equation; the rest says that there is one DaemonSet per
   kernel, that completed kernels run what their mapping says, that drivers kept are the same objects, and that nothing
   else changed but the device plugin.
   */
  ghost predicate Reconciled(before: DaemonSets, after: DaemonSets, m: string, devicePlugin: Option<string>,
                             mlds: map<string, ModuleLoaderData>, completed: set<string>)
  {
    && DriverKernels(after, m) == DriverKernels(before, m) * mlds.Keys + completed
    && OnePerKernel(after, m) && AsDesired(after, m, mlds, completed)
    && KeepsValidDrivers(before, after, m, mlds.Keys, completed)
    && KeepsOthers(before, after, m)
    && (forall n :: n in after && n !in before && n != DevicePluginName(m) ==>
         Driver(after[n], m) && after[n].kernel in completed)
    && DevicePluginAsDesired(before, after, m, devicePlugin)
  }

  ghost predicate KeepsValidDrivers(before: DaemonSets, after: DaemonSets, m: string, valid: set<string>,
                                    completed: set<string>)
  {
    forall n :: n in before && Driver(before[n], m) && before[n].kernel in valid ==>
      n in after && Driver(after[n], m) && after[n].kernel == before[n].kernel
      && (before[n].kernel !in completed ==> after[n] == before[n])
  }

  ghost predicate KeepsOthers(before: DaemonSets, after: DaemonSets, m: string) {
    forall n :: n in before && !Driver(before[n], m) && n != DevicePluginName(m) ==> n in after && after[n] == before[n]
  }

  ghost predicate DevicePluginAsDesired(before: DaemonSets, after: DaemonSets, m: string, devicePlugin: Option<string>)
  {
    var n := DevicePluginName(m);
    if devicePlugin.Some? then n in after && after[n] == WithDevicePlugin(before, m, devicePlugin)[n]
    else (n in after <==> n in before) && (n in before ==> after[n] == before[n])
  }

  lemma PassKeepsDrivers(before: DaemonSets, now: DaemonSets, after: DaemonSets, m: string,
                         devicePlugin: Option<string>, mlds: map<string, ModuleLoaderData>, completed: set<string>)
    requires Written(before, now, m, mlds, completed) && DevicePluginByName(before, m)
    requires Collected(WithDevicePlugin(now, m, devicePlugin), after, m, mlds.Keys)
    ensures KeepsValidDrivers(before, after, m, mlds.Keys, completed)
  {
  }

  lemma PassKeepsOthers(before: DaemonSets, now: DaemonSets, after: DaemonSets, m: string, devicePlugin: Option<string>,
                        mlds: map<string, ModuleLoaderData>, completed: set<string>)
    requires Written(before, now, m, mlds, completed) && DevicePluginByName(before, m)
    requires Collected(WithDevicePlugin(now, m, devicePlugin), after, m, mlds.Keys)
    ensures KeepsOthers(before, after, m)
  {
    hide OnePerKernel, AsDesired, DriverKernels;
  }

  lemma PassKeepsDesired(before: DaemonSets, now: DaemonSets, after: DaemonSets, m: string,
                         devicePlugin: Option<string>, mlds: map<string, ModuleLoaderData>, completed: set<string>)
    requires Written(before, now, m, mlds, completed) && DevicePluginByName(before, m)
    requires Collected(WithDevicePlugin(now, m, devicePlugin), after, m, mlds.Keys)
    ensures AsDesired(after, m, mlds, completed)
  {
    hide OnePerKernel, Grown, DriverKernels;
  }

  lemma PassAddsDrivers(before: DaemonSets, now: DaemonSets, after: DaemonSets, m: string, devicePlugin: Option<string>,
                        mlds: map<string, ModuleLoaderData>, completed: set<string>)
    requires Written(before, now, m, mlds, completed) && DevicePluginByName(before, m)
    requires Collected(WithDevicePlugin(now, m, devicePlugin), after, m, mlds.Keys)
    ensures forall n :: n in after && n !in before && n != DevicePluginName(m) ==>
      Driver(after[n], m) && after[n].kernel in completed
  {
  }

  lemma PassKeepsOne(now: DaemonSets, after: DaemonSets, m: string, devicePlugin: Option<string>, valid: set<string>)
    requires OnePerKernel(now, m) && Collected(WithDevicePlugin(now, m, devicePlugin), after, m, valid)
    ensures OnePerKernel(after, m)
  {
  }

  lemma PassReconciles(before: DaemonSets, now: DaemonSets, after: DaemonSets, m: string, devicePlugin: Option<string>,
                       mlds: map<string, ModuleLoaderData>, completed: set<string>)
    requires Written(before, now, m, mlds, completed) && DevicePluginByName(before, m) && completed <= mlds.Keys
    requires Collected(WithDevicePlugin(now, m, devicePlugin), after, m, mlds.Keys)
    ensures Reconciled(before, after, m, devicePlugin, mlds, completed)
  {
    PassKeepsDrivers(before, now, after, m, devicePlugin, mlds, completed);
    PassKeepsOthers(before, now, after, m, devicePlugin, mlds, completed);
    PassKeepsDesired(before, now, after, m, devicePlugin, mlds, completed);
    PassAddsDrivers(before, now, after, m, devicePlugin, mlds, completed);
    PassKeepsOne(now, after, m, devicePlugin, mlds.Keys);
    PassDevicePlugin(before, now, after, m, devicePlugin, mlds, completed);
    KeptKernels(before, after, m, mlds.Keys, completed);
    forall k | k in completed ensures k in DriverKernels(after, m) {
      CompletedKernelsStay(now, after, m, devicePlugin, mlds.Keys, k);
    }
    PassCoversOnly(before, now, after, m, devicePlugin, mlds, completed);
  }

  lemma PassDevicePlugin(before: DaemonSets, now: DaemonSets, after: DaemonSets, m: string,
                         devicePlugin: Option<string>, mlds: map<string, ModuleLoaderData>, completed: set<string>)
    requires Written(before, now, m, mlds, completed) && DevicePluginByName(before, m)
    requires Collected(WithDevicePlugin(now, m, devicePlugin), after, m, mlds.Keys)
    ensures DevicePluginAsDesired(before, after, m, devicePlugin)
  {
  }

  /** The set equation, first half: the kernels that must have a driver. */
  lemma KeptKernels(before: DaemonSets, after: DaemonSets, m: string, valid: set<string>, completed: set<string>)
    requires KeepsValidDrivers(before, after, m, valid, completed)
    ensures DriverKernels(before, m) * valid <= DriverKernels(after, m)
  {
    forall k | k in DriverKernels(before, m) * valid ensures k in DriverKernels(after, m) {
      var n :| n in before && Driver(before[n], m) && before[n].kernel == k;
      assert n in after && Driver(after[n], m) && after[n].kernel == k;
    }
  }

  lemma CompletedKernelsStay(now: DaemonSets, after: DaemonSets, m: string, devicePlugin: Option<string>,
                             valid: set<string>, k: string)
    requires DevicePluginByName(now, m) && k in DriverKernels(now, m) && k in valid
    requires Collected(WithDevicePlugin(now, m, devicePlugin), after, m, valid)
    ensures k in DriverKernels(after, m)
  {
    var n :| n in now && Driver(now[n], m) && now[n].kernel == k;
    assert n != DevicePluginName(m);
    assert WithDevicePlugin(now, m, devicePlugin)[n] == now[n];
    assert n in after && after[n] == now[n];
  }

  /** Second half: no other kernel has one. */
  lemma PassCoversOnly(before: DaemonSets, now: DaemonSets, after: DaemonSets, m: string, devicePlugin: Option<string>,
                    mlds: map<string, ModuleLoaderData>, completed: set<string>)
    requires Written(before, now, m, mlds, completed) && DevicePluginByName(before, m) && completed <= mlds.Keys
    requires Collected(WithDevicePlugin(now, m, devicePlugin), after, m, mlds.Keys)
    ensures DriverKernels(after, m) <= DriverKernels(before, m) * mlds.Keys + completed
  {
    forall k | k in DriverKernels(after, m) ensures k in DriverKernels(before, m) * mlds.Keys + completed {
      var n :| n in after && Driver(after[n], m) && after[n].kernel == k;
      assert after[n] == WithDevicePlugin(now, m, devicePlugin)[n] == now[n];
      if n in before { assert before[n].kernel in DriverKernels(before, m); }
    }
  }

  /** The DaemonSet of a module's driver for kernel k, by the fields of the kernel's data. */
  ghost predicate RunsMapping(ds: DaemonSet, m: string, k: string, mld: ModuleLoaderData) {
    && ds.moduleName == m && ds.kernel == k != "" && ds.image == mld.containerImage != ""
    && ds.nodeSelector == mld.selector["kmm.node.kubernetes.io/kernel-version.full" := k]
    && ds.podFinalizers == ["kmm.node.kubernetes.io/node-labeler"]
  }

  /** After a successful pass each completed kernel has a driver, and every driver it has runs what its mapping says. */
  lemma CompletedRunTheirMapping(before: DaemonSets, after: DaemonSets, m: string, devicePlugin: Option<string>,
                                 mlds: map<string, ModuleLoaderData>, completed: set<string>, k: string)
    requires Reconciled(before, after, m, devicePlugin, mlds, completed) && MappingsOf(mlds, m)
    requires k in completed && completed <= mlds.Keys
    ensures exists n :: n in after && after[n].moduleName == m && after[n].kernel == k
    ensures forall n :: n in after && after[n].moduleName == m && after[n].kernel == k ==>
      RunsMapping(after[n], m, k, mlds[k])
  {
    assert k in DriverKernels(after, m);
    var n :| n in after && Driver(after[n], m) && after[n].kernel == k;
    assert DesiredDriver(mlds[k]) == Some(after[n]);
  }

  /** So does the device plugin, which is to run only on nodes that carry the module's ready label. */
  lemma DevicePluginRuns(before: DaemonSets, after: DaemonSets, m: string, devicePlugin: Option<string>,
                         mlds: map<string, ModuleLoaderData>, completed: set<string>)
    requires Reconciled(before, after, m, devicePlugin, mlds, completed) && devicePlugin.Some?
    ensures var n := m + "-device-plugin";
      && n in after && after[n].moduleName == m && after[n].kernel == "" && after[n].image == devicePlugin.value
      && after[n].nodeSelector == map["kmm.node.kubernetes.io/" + m + ".ready" := ""]
      && after[n].podFinalizers == ["kmm.node.kubernetes.io/node-labeler"]
  {
  }

  /** A second pass with the same outcomes creates, deletes and changes nothing. */
  lemma RepeatChangesNothing(before: DaemonSets, once: DaemonSets, twice: DaemonSets, m: string,
                             devicePlugin: Option<string>, mlds: map<string, ModuleLoaderData>, completed: set<string>)
    requires completed <= mlds.Keys
    requires Reconciled(before, once, m, devicePlugin, mlds, completed)
    requires Reconciled(once, twice, m, devicePlugin, mlds, completed)
    ensures twice == once
  {
    forall n | n in once ensures n in twice && twice[n] == once[n] {
      if Driver(once[n], m) { assert once[n].kernel in DriverKernels(once, m); }
    }
    forall n | n in twice ensures n in once {
      if n !in once && n != DevicePluginName(m) {
        NoSecondDriver(once, twice, m, mlds.Keys, completed, n);
      }
    }
  }

  lemma NoSecondDriver(once: DaemonSets, twice: DaemonSets, m: string, valid: set<string>, completed: set<string>,
                       n: string)
    requires completed <= DriverKernels(once, m) && completed <= valid &&
      KeepsValidDrivers(once, twice, m, valid, completed)
    requires OnePerKernel(twice, m) && n in twice && Driver(twice[n], m) && twice[n].kernel in completed
    ensures n in once
  {
    var x :| x in once && Driver(once[x], m) && once[x].kernel == twice[n].kernel;
    assert SameKernel(twice[x], twice[n], m);
  }

  /** Nor does it on the way: at every API call the same DaemonSets are there. */
  lemma RepeatLeavesAllInPlace(states: seq<DaemonSets>, once: DaemonSets, m: string, valid: set<string>, i: nat)
    requires EachStateSafe(states, once, once, m, valid) && i < |states|
    ensures states[i].Keys == once.Keys
  {
  }

  // ---- The nodes a pass targets ----------------------------------------------------------------------------

  datatype TaintEffect = NoSchedule | PreferNoSchedule | NoExecute

  datatype Node = Node(name: string, labels: map<string, string>, kernelVersion: string, taints: seq<TaintEffect>)

  /** Kubernetes matches a node selector when the node has every one of its labels. */
  ghost predicate Selects(selector: map<string, string>, labels: map<string, string>) {
    forall k :: k in selector ==> k in labels && labels[k] == selector[k]
  }

  function KernelOf(node: Node): string {
    TrimPlus(node.kernelVersion)
  }

  function Targeted(nodes: seq<Node>): set<string> {
    set n | n in nodes :: KernelOf(n)
  }

  /** The nodes without that taint, in the order listed. */
  function Schedulable(nodes: seq<Node>): (r: seq<Node>)
    ensures forall n :: n in r <==> n in nodes && NoSchedule !in n.taints
    ensures |r| <= |nodes|
  {
    if nodes == [] then []
    else
      var (front, last) := (Schedulable(nodes[..|nodes| - 1]), nodes[|nodes| - 1]);
      assert nodes == nodes[..|nodes| - 1] + [last];
      if NoSchedule in last.taints then front else front + [last]
  }

  lemma OneMoreSchedulable(nodes: seq<Node>, i: nat)
    requires i < |nodes|
    ensures Schedulable(nodes[..i + 1]) ==
      if NoSchedule in nodes[i].taints then Schedulable(nodes[..i]) else Schedulable(nodes[..i]) + [nodes[i]]
  {
    assert nodes[..i + 1][..i] == nodes[..i];
  }

  /** isNodeSchedulable. */
  method IsNodeSchedulable(node: Node) returns (ok: bool)
    ensures ok <==> NoSchedule !in node.taints
  {
    for j := 0 to |node.taints|
      invariant NoSchedule !in node.taints[..j]
    {
      if node.taints[j] == NoSchedule {
        return false;
      }
    }
    assert node.taints[..|node.taints|] == node.taints;
    return true;
  }

  /** The loop of getNodesListBySelector over the nodes the API server selected. */
  method SchedulableNodes(selected: seq<Node>) returns (nodes: seq<Node>)
    ensures nodes == Schedulable(selected)
    ensures forall n :: n in nodes <==> n in selected && NoSchedule !in n.taints
  {
    nodes := [];
    for i := 0 to |selected|
      invariant nodes == Schedulable(selected[..i])
    {
      OneMoreSchedulable(selected, i);
      var schedulable := IsNodeSchedulable(selected[i]);
      if schedulable {
        nodes := nodes + [selected[i]];
      }
    }
    assert selected[..|selected|] == selected;
  }

  /** The nodes whose kernel has a usable mapping, in order, each looked up on its own. */
  function NodesWithMapping(libs: Libraries, mod: Module, nodes: seq<Node>): seq<Node> {
    if nodes == [] then []
    else
      var (front, last) := (NodesWithMapping(libs, mod, nodes[..|nodes| - 1]), nodes[|nodes| - 1]);
      if Lookup(libs, mod, KernelOf(last)).Success? then front + [last] else front
  }

  lemma OneMoreNode(libs: Libraries, mod: Module, nodes: seq<Node>, i: nat)
    requires i < |nodes|
    ensures Targeted(nodes[..i + 1]) == Targeted(nodes[..i]) + {KernelOf(nodes[i])} <= Targeted(nodes)
    ensures var more := if Lookup(libs, mod, KernelOf(nodes[i])).Success? then [nodes[i]] else [];
      NodesWithMapping(libs, mod, nodes[..i + 1]) == NodesWithMapping(libs, mod, nodes[..i]) + more
  {
    assert nodes[..i + 1] == nodes[..i] + [nodes[i]];
    assert nodes[..i + 1][..i] == nodes[..i];
  }

  lemma NoNodeYet(libs: Libraries, mod: Module, nodes: seq<Node>)
    ensures Outcome(libs, mod, Targeted(nodes[..0])) == Some(map[]) && NodesWithMapping(libs, mod, nodes[..0]) == []
  {
  }

  lemma LookupsAreMappings(libs: Libraries, mod: Module, kernels: set<string>)
    ensures MappingsOf(LookupAll(libs, mod, kernels), mod.name)
  {
  }

  /**
   getRelevantKernelMappingsAndNodes: the loop that looks a kernel up once gives what looking up every node gives. The
   mappings are None when it panics.
   */
  method RelevantKernelMappingsAndNodes(libs: Libraries, mod: Module, targetedNodes: seq<Node>)
    returns (r: Option<map<string, ModuleLoaderData>>, nodes: seq<Node>)
    ensures r == Outcome(libs, mod, Targeted(targetedNodes))
    ensures r.Some? ==> nodes == NodesWithMapping(libs, mod, targetedNodes) && MappingsOf(r.value, mod.name)
  {
    hide Lookup, LookupAll, NodesWithMapping, SomePanics, Targeted, KernelOf;
    NoNodeYet(libs, mod, targetedNodes);
    var mldMappings: map<string, ModuleLoaderData> := map[];
    nodes := [];
    var i := 0;
    while i < |targetedNodes|
      invariant 0 <= i <= |targetedNodes|
      invariant Outcome(libs, mod, Targeted(targetedNodes[..i])) == Some(mldMappings)
      invariant nodes == NodesWithMapping(libs, mod, targetedNodes[..i])
    {
      var node := targetedNodes[i];
      var kernelVersion := KernelOf(node);
      OneMoreNode(libs, mod, targetedNodes, i);
      if kernelVersion in mldMappings {
        AlreadyLookedUp(libs, mod, Targeted(targetedNodes[..i]), kernelVersion);
        nodes := nodes + [node];
      } else {
        OneMoreKernel(libs, mod, Targeted(targetedNodes[..i]), kernelVersion);
        var mld := GetModuleLoaderDataForKernel(libs, mod, kernelVersion);
        if mld == Failure(Panicked) {
          PanicStops(libs, mod, Targeted(targetedNodes[..i + 1]), Targeted(targetedNodes), kernelVersion);
          return None, [];
        }
        if mld.Success? {
          mldMappings := mldMappings[kernelVersion := mld.value];
          nodes := nodes + [node];
        }
      }
      i := i + 1;
    }
    assert targetedNodes[..i] == targetedNodes;
    LookupsAreMappings(libs, mod, Targeted(targetedNodes));
    return Some(mldMappings), nodes;
  }

  // ---- Exactly-one coverage ----------------------------------------------------------------------------------

  /** The module-loader DaemonSets whose pods the node takes. */
  ghost predicate Runs(after: DaemonSets, m: string, n: string, node: Node) {
    n in after && Driver(after[n], m) && Selects(after[n].nodeSelector, node.labels)
  }

  /** The node is selected by the module and the node-kernel controller has labelled it with its kernel. */
  ghost predicate LabelledTarget(mod: Module, node: Node) {
    && Selects(mod.selector, node.labels)
    && KERNEL_LABEL in node.labels && node.labels[KERNEL_LABEL] == KernelOf(node)
  }

  lemma RunsOnlyItsKernel(after: DaemonSets, mod: Module, mlds: map<string, ModuleLoaderData>, n: string, node: Node)
    requires AsDesired(after, mod.name, mlds, mlds.Keys) && DriverKernels(after, mod.name) == mlds.Keys
    requires LabelledTarget(mod, node) && Runs(after, mod.name, n, node)
    ensures after[n].kernel == KernelOf(node) && KernelOf(node) in mlds
  {
    assert after[n].kernel in DriverKernels(after, mod.name);
    assert KERNEL_LABEL in after[n].nodeSelector;
  }

  lemma RunsItsDriver(after: DaemonSets, mod: Module, mlds: map<string, ModuleLoaderData>, n: string, node: Node)
    requires AsDesired(after, mod.name, mlds, mlds.Keys)
    requires LabelledTarget(mod, node) && n in after && Driver(after[n], mod.name) && after[n].kernel == KernelOf(node)
    requires KernelOf(node) in mlds && mlds[KernelOf(node)].selector == mod.selector
    ensures Runs(after, mod.name, n, node)
  {
  }

  lemma AtMostOneRuns(after: DaemonSets, mod: Module, mlds: map<string, ModuleLoaderData>, node: Node, a: string,
                      b: string)
    requires AsDesired(after, mod.name, mlds, mlds.Keys) && DriverKernels(after, mod.name) == mlds.Keys
    requires OnePerKernel(after, mod.name) && LabelledTarget(mod, node)
    requires Runs(after, mod.name, a, node) && Runs(after, mod.name, b, node)
    ensures a == b
  {
    RunsOnlyItsKernel(after, mod, mlds, a, node);
    RunsOnlyItsKernel(after, mod, mlds, b, node);
    assert SameKernel(after[a], after[b], mod.name);
  }

  lemma SomeRuns(after: DaemonSets, mod: Module, mlds: map<string, ModuleLoaderData>, node: Node) returns (n: string)
    requires AsDesired(after, mod.name, mlds, mlds.Keys) && DriverKernels(after, mod.name) == mlds.Keys
    requires LabelledTarget(mod, node) && KernelOf(node) in mlds && mlds[KernelOf(node)].selector == mod.selector
    ensures Runs(after, mod.name, n, node)
  {
    assert KernelOf(node) in DriverKernels(after, mod.name);
    n :| n in after && Driver(after[n], mod.name) && after[n].kernel == KernelOf(node);
    RunsItsDriver(after, mod, mlds, n, node);
  }

  lemma AllCompletedMeans(before: DaemonSets, after: DaemonSets, m: string, devicePlugin: Option<string>,
                          mlds: map<string, ModuleLoaderData>)
    requires Reconciled(before, after, m, devicePlugin, mlds, mlds.Keys)
    ensures AsDesired(after, m, mlds, mlds.Keys) && DriverKernels(after, m) == mlds.Keys && OnePerKernel(after, m)
  {
  }

  lemma TargetsLookedUp(libs: Libraries, mod: Module, targetedNodes: seq<Node>, node: Node)
    requires node in targetedNodes
    ensures var mlds := LookupAll(libs, mod, Targeted(targetedNodes));
      && (KernelOf(node) in mlds <==> Lookup(libs, mod, KernelOf(node)).Success?)
      && (KernelOf(node) in mlds ==> mlds[KernelOf(node)].selector == mod.selector)
  {
    assert KernelOf(node) in Targeted(targetedNodes);
  }

  /**
   After a successful pass in which every mapped kernel completed, each targeted and labelled node is matched by exactly
   one driver DaemonSet if its kernel has a usable mapping, and by none otherwise.
   */
  lemma ExactlyOneCoverage(libs: Libraries, mod: Module, targetedNodes: seq<Node>, before: DaemonSets,
                           after: DaemonSets, devicePlugin: Option<string>, node: Node)
    requires var mlds := LookupAll(libs, mod, Targeted(targetedNodes));
      Reconciled(before, after, mod.name, devicePlugin, mlds, mlds.Keys)
    requires node in targetedNodes && LabelledTarget(mod, node)
    ensures forall a, b :: Runs(after, mod.name, a, node) && Runs(after, mod.name, b, node) ==> a == b
    ensures (exists n :: Runs(after, mod.name, n, node)) <==> Lookup(libs, mod, KernelOf(node)).Success?
  {
    var mlds := LookupAll(libs, mod, Targeted(targetedNodes));
    AllCompletedMeans(before, after, mod.name, devicePlugin, mlds);
    TargetsLookedUp(libs, mod, targetedNodes, node);
    hide Reconciled, AsDesired, OnePerKernel, DriverKernels, LabelledTarget, Runs, Lookup, LookupAll;
    forall a, b | Runs(after, mod.name, a, node) && Runs(after, mod.name, b, node) ensures a == b {
      AtMostOneRuns(after, mod, mlds, node, a, b);
    }
    if n :| Runs(after, mod.name, n, node) {
      RunsOnlyItsKernel(after, mod, mlds, n, node);
    } else if Lookup(libs, mod, KernelOf(node)).Success? {
      var n := SomeRuns(after, mod, mlds, node);
    }
  }
}
