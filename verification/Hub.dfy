/**
 Both ends of the hub/spoke wire: the spoke publishes its nodes' kernels as one string
 (controllers/node_kernel_clusterclaim.go), the hub reads them back, finds their mappings and builds and signs for them
 (internal/cluster/cluster.go).
 */
module Hub {
  import opened Base
  import opened Text
  import opened KernelMapper

  const CLAIM_NAME := "kernel-versions.kmm.node.kubernetes.io"

  datatype ClusterClaim = ClusterClaim(name: string, value: string)

  datatype HubError = NoClaim | SyncFailed

  // ---- The claim -----------------------------------------------------------------------------------------

  ghost predicate PublishedFor(claim: string, kernels: set<string>) {
    exists listing :: Lists(listing, kernels) && claim == Join(listing, '\n')
  }

  /** The value the spoke publishes for its list of nodes. */
  method PublishClaim(nodeKernels: seq<string>) returns (claim: string)
    ensures PublishedFor(claim, set k | k in nodeKernels)
  {
    var kernelsMap: set<string> := {};
    var i := 0;
    while i < |nodeKernels|
      invariant 0 <= i <= |nodeKernels|
      invariant kernelsMap == set k | k in nodeKernels[..i]
    {
      kernelsMap := kernelsMap + {nodeKernels[i]};
      assert nodeKernels[..i + 1] == nodeKernels[..i] + [nodeKernels[i]];
      i := i + 1;
    }
    assert nodeKernels[..i] == nodeKernels;
    var kernelsSlice: seq<string> := [];
    var todo := kernelsMap;
    while todo != {}
      invariant todo <= kernelsMap && Distinct(kernelsSlice)
      invariant forall k :: k in kernelsSlice <==> k in kernelsMap && k !in todo
      decreases |todo|
    {
      var k :| k in todo;
      todo := todo - {k};
      kernelsSlice := kernelsSlice + [k];
    }
    assert (set k | k in kernelsSlice) == kernelsMap;
    var sorted := Sort(kernelsSlice);
    claim := Join(sorted, '\n');
  }

  /** Any two node lists with the same kernels publish the same string, whatever their order and repetitions. */
  lemma ClaimIsCanonical(claim1: string, claim2: string, kernels: set<string>)
    requires PublishedFor(claim1, kernels) && PublishedFor(claim2, kernels)
    ensures claim1 == claim2
  {
    var xs :| Lists(xs, kernels) && claim1 == Join(xs, '\n');
    var ys :| Lists(ys, kernels) && claim2 == Join(ys, '\n');
    ListsUnique(xs, ys, kernels);
  }

  /**
   Splitting the claim gives back exactly the sorted distinct kernels if and only if there is a node and no kernel name
   holds a newline; in particular the claim of an empty node list reads back as one kernel with an empty name.
   */
  lemma ClaimRoundTrip(claim: string, kernels: set<string>)
    requires PublishedFor(claim, kernels)
    ensures Lists(Split(claim, '\n'), kernels) <==> kernels != {} && forall k :: k in kernels ==> '\n' !in k
  {
    var listing :| Lists(listing, kernels) && claim == Join(listing, '\n');
    RoundTrip(listing, '\n');
    if kernels != {} && forall k :: k in kernels ==> '\n' !in k {
      var k :| k in kernels;
      assert k in listing;
    } else if k :| k in kernels && '\n' in k {
      assert k !in Split(claim, '\n');
    } else {
      assert Split(claim, '\n')[0] in Split(claim, '\n');
    }
  }

  ghost predicate IsFirstClaim(claims: seq<ClusterClaim>, i: nat)
    requires i < |claims|
  {
    claims[i].name == CLAIM_NAME && forall j :: 0 <= j < i ==> claims[j].name != CLAIM_NAME
  }

  /** kernelVersions: the claim of the managed cluster, split. */
  method KernelVersions(claims: seq<ClusterClaim>) returns (r: Result<seq<string>, HubError>)
    ensures r.Failure? <==> forall c :: c in claims ==> c.name != CLAIM_NAME
    ensures r.Success? ==>
      exists i :: 0 <= i < |claims| && IsFirstClaim(claims, i) && r.value == Split(claims[i].value, '\n')
  {
    var i := 0;
    while i < |claims|
      invariant 0 <= i <= |claims|
      invariant forall j :: 0 <= j < i ==> claims[j].name != CLAIM_NAME
    {
      if claims[i].name == CLAIM_NAME {
        return Success(Split(claims[i].value, '\n'));
      }
      i := i + 1;
    }
    return Failure(NoClaim);
  }

  // ---- The mappings of a cluster's kernels ----------------------------------------------------------------

  function Trimmed(kernels: seq<string>): set<string> {
    set k | k in kernels :: TrimPlus(k)
  }

  /** The loop of kernelMappingsByKernelVersion, which looks every kernel up once; None when it panics. */
  method KernelMappingsByKernelVersion(libs: Libraries, mod: Module, kernelVersions: seq<string>)
    returns (r: Option<map<string, ModuleLoaderData>>)
    ensures r == Outcome(libs, mod, Trimmed(kernelVersions))
  {
    hide Lookup, LookupAll, SomePanics, Trimmed;
    NoneTrimmed(libs, mod, kernelVersions);
    var mldMappings: map<string, ModuleLoaderData> := map[];
    var i := 0;
    while i < |kernelVersions|
      invariant 0 <= i <= |kernelVersions|
      invariant Outcome(libs, mod, Trimmed(kernelVersions[..i])) == Some(mldMappings)
    {
      var kernelVersion := TrimPlus(kernelVersions[i]);
      OneMoreTrimmed(kernelVersions, i);
      if kernelVersion in mldMappings {
        AlreadyLookedUp(libs, mod, Trimmed(kernelVersions[..i]), kernelVersion);
      } else {
        OneMoreKernel(libs, mod, Trimmed(kernelVersions[..i]), kernelVersion);
        var mld := GetModuleLoaderDataForKernel(libs, mod, kernelVersion);
        if mld == Failure(Panicked) {
          PanicStops(libs, mod, Trimmed(kernelVersions[..i + 1]), Trimmed(kernelVersions), kernelVersion);
          return None;
        }
        if mld.Success? {
          mldMappings := mldMappings[kernelVersion := mld.value];
        }
      }
      i := i + 1;
    }
    assert kernelVersions[..i] == kernelVersions;
    return Some(mldMappings);
  }

  lemma NoneTrimmed(libs: Libraries, mod: Module, kernels: seq<string>)
    ensures Outcome(libs, mod, Trimmed(kernels[..0])) == Some(map[])
  {
  }

  lemma OneMoreTrimmed(kernels: seq<string>, i: nat)
    requires i < |kernels|
    ensures Trimmed(kernels[..i + 1]) == Trimmed(kernels[..i]) + {TrimPlus(kernels[i])} <= Trimmed(kernels)
  {
    assert kernels[..i + 1] == kernels[..i] + [kernels[i]];
  }

  lemma NoKernelPanics(libs: Libraries, mod: Module)
    ensures Outcome(libs, mod, {}) == Some(map[])
    ensures Outcome(libs, mod, {""}) == Some(map[]) <==> Choose(libs, mod.mappings, "").Failure?
  {
    PanicsIff(libs, mod, "");
    if Choose(libs, mod.mappings, "").Success? {
      assert "" in {""};
      assert SomePanics(libs, mod, {""});
    }
  }

  /**
   The hub, reading an up-to-date claim, does the same as the loop over the nodes themselves exactly when there is a
   node or no mapping matches the empty kernel name. Otherwise the hub panics on that name.
   */
  lemma HubAgreesWithNodes(libs: Libraries, mod: Module, nodeKernels: seq<string>, claim: string)
    requires forall k :: k in nodeKernels ==> '\n' !in k
    requires PublishedFor(claim, set k | k in nodeKernels)
    ensures Outcome(libs, mod, Trimmed(Split(claim, '\n'))) == Outcome(libs, mod, Trimmed(nodeKernels))
            <==> nodeKernels != [] || Choose(libs, mod.mappings, "").Failure?
  {
    var kernels := set k | k in nodeKernels;
    ClaimRoundTrip(claim, kernels);
    if nodeKernels != [] {
      assert nodeKernels[0] in kernels;
      assert Lists(Split(claim, '\n'), kernels);
      assert Trimmed(Split(claim, '\n')) == Trimmed(nodeKernels);
    } else {
      EmptyClaim(claim);
      NoKernelPanics(libs, mod);
      assert Trimmed(nodeKernels) == {};
    }
  }

  /** The claim of a cluster without nodes reads back as one kernel with an empty name. */
  lemma EmptyClaim(claim: string)
    requires PublishedFor(claim, {})
    ensures claim == "" && Trimmed(Split(claim, '\n')) == {""}
  {
    var listing :| Lists(listing, {}) && claim == Join(listing, '\n');
    ListsUnique(listing, [], {});
    assert Split("", '\n') == [""];
    assert "" in [""] && TrimPlus("") == "";
  }

  // ---- BuildAndSign ----------------------------------------------------------------------------------------

  /** What building, or signing, for one kernel comes to in this call. */
  datatype Progress = Completed | NotYet | Errored

  /** build and then sign, for one kernel. */
  function KernelProgress(build: ModuleLoaderData -> Progress, sign: ModuleLoaderData -> Progress,
                          mld: ModuleLoaderData): Progress
  {
    if build(mld) == Completed then sign(mld) else build(mld)
  }

  /**
   BuildAndSign lets the spec be shipped to a cluster only when the cluster has a kernel with a mapping and every such
   kernel is built and signed, in whatever order the kernels are visited.
   */
  method BuildAndSign(mldMappings: map<string, ModuleLoaderData>, build: ModuleLoaderData -> Progress,
                      sign: ModuleLoaderData -> Progress)
    returns (r: Result<bool, HubError>)
    ensures r.Failure? <==>
      exists k :: k in mldMappings &&
        (build(mldMappings[k]) == Errored || (build(mldMappings[k]) == Completed && sign(mldMappings[k]) == Errored))
    ensures r == Success(true) <==>
      && mldMappings != map[]
      && forall k :: k in mldMappings ==> build(mldMappings[k]) == Completed && sign(mldMappings[k]) == Completed
  {
    if mldMappings == map[] {
      return Success(false);
    }
    var completedSuccessfully := true;
    var todo := mldMappings.Keys;
    while todo != {}
      invariant todo <= mldMappings.Keys
      invariant forall k :: k in mldMappings && k !in todo ==> KernelProgress(build, sign, mldMappings[k]) != Errored
      invariant completedSuccessfully <==>
        forall k :: k in mldMappings && k !in todo ==> KernelProgress(build, sign, mldMappings[k]) == Completed
      decreases |todo|
    {
      var k :| k in todo;
      todo := todo - {k};
      var mld := mldMappings[k];
      match build(mld) {
        case Errored => return Failure(SyncFailed);
        case NotYet => completedSuccessfully := false;
        case Completed =>
          match sign(mld) {
            case Errored => return Failure(SyncFailed);
            case NotYet => completedSuccessfully := false;
            case Completed =>
          }
      }
    }
    return Success(completedSuccessfully);
  }
}
