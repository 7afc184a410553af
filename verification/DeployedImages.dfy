/**
 The DaemonSets of a pass and the signing protocol meet in the image: what Reconcile makes the drivers run is the image
 whose signing was asked for, so it has been pushed.
 */
module DeployedImages {
  import opened Base
  import opened KernelMapper
  import SignArgs
  import D = Deployment
  import R = Reconciler

  /** What a driver of a completed kernel runs is what the request for its mapping asks to be deployed. */
  lemma DriverRunsRequest(
    before: R.DaemonSets, after: R.DaemonSets, m: string, devicePlugin: Option<string>,
    mlds: map<string, ModuleLoaderData>, completed: set<string>, n: string, intermediateImage: string, secrets: string)
    requires R.Reconciled(before, after, m, devicePlugin, mlds, completed) && R.MappingsOf(mlds, m)
    requires completed <= mlds.Keys && n in after && after[n].moduleName == m && after[n].kernel in completed
    ensures var request := D.RequestFor(mlds[after[n].kernel], intermediateImage, secrets);
      request.image == after[n].image && request.kernel == after[n].kernel && D.Deployable(request)
  {
    var k := after[n].kernel;
    R.CompletedRunTheirMapping(before, after, m, devicePlugin, mlds, completed, k);
    D.RequestMeans(mlds[k], intermediateImage, secrets);
    hide R.Reconciled, D.RequestFor;
  }

  /**
   The image a driver of a completed kernel runs is in the registry, if its mapping asks for signing and lists a file:
   whatever happened in the run that ended with the kernel's DaemonSet written for that mapping.
   */
  lemma DeployedDriversArePushed(
    before: R.DaemonSets, after: R.DaemonSets, m: string, devicePlugin: Option<string>,
    mlds: map<string, ModuleLoaderData>, completed: set<string>, n: string, intermediateImage: string, secrets: string,
    me: D.Setup, w: D.World)
    requires R.Reconciled(before, after, m, devicePlugin, mlds, completed) && R.MappingsOf(mlds, m)
    requires completed <= mlds.Keys && n in after && after[n].moduleName == m && after[n].kernel in completed
    requires D.HashSeparates(me) && D.Reachable(me, w) && after[n].kernel in w.daemonSets
    requires var mld := mlds[after[n].kernel];
      && w.daemonSets[after[n].kernel] == D.RequestFor(mld, intermediateImage, secrets)
      && mld.sign.Some? && mld.sign.value.filesToSign !in {[], [""]}
    ensures after[n].image in w.images
  {
    var k := after[n].kernel;
    var files := mlds[k].sign.value.filesToSign;
    DriverRunsRequest(before, after, m, devicePlugin, mlds, completed, n, intermediateImage, secrets);
    D.RequestMeans(mlds[k], intermediateImage, secrets);
    SignArgs.NothingListed(files);
    hide R.Reconciled, D.RequestFor;
    D.DaemonSetsNamePushedImages(me, w, k);
  }
}
