# Verified model of the Kernel Module Management operator

Kernel Module Management (KMM) builds, signs and deploys out-of-tree kernel modules on a Kubernetes cluster. This project
models the parts of it that carry state, a protocol or a transformation, and proves what they keep, over every run, every
interleaving and every input. `dafny verify dfyconfig.toml` checks all of it.

| file | what it models | main results |
|---|---|---|
| `KernelOsDtk.dfy` | the kernel/OS/DTK map behind two readers-writer locks, any number of concurrent calls | `Linearizable`, `LastWritesDecide`, `RealTimeOrder`, `GetImageSeesOneState`, `DeadlockFree`, `EveryScheduleEnds` |
| `PodLabeler.dfy` | the controller that labels nodes and removes pod finalizers, one API call per step | `ReadyLabelMeansPod`, `ReconcileSettlesNode` |
| `NodeLabels.dfy` | where that controller meets the DaemonSets and the node-kernel controller | `DevicePluginFollowsDriver` |
| `Text.dfy`, `Paths.dfy` | join, split, sort, `filepath.Clean` | `RoundTrip`, `ListsUnique`, `CanonicalIsIdempotent`, `FixedPoints` |
| `Registry.dfy`, `Overlay.dfy`, `SignImage.dfy` | reading layers, what an image means, the signing tool | `VisibleIffUndisturbed`, `PickIsVisible`, `SigningPreservesImage`, `ToolPreservesImage`, `WholeImagePreserved` |
| `SignArgs.dfy` | the arguments of a signing job, through Go's flag package into the tool | `RunJob`, `MakeArgs`, `FilesSurvive` |
| `KernelMapper.dfy`, `Hub.dfy` | from a spec and a kernel to the data to work on; hub and spoke | `LookupSigns`, `LookupFields`, `StrippingPreservesMeaning`, `ClaimRoundTrip`, `HubAgreesWithNodes` |
| `SignJobs.dfy` | finding, creating, replacing and collecting sign jobs | `Sync`, `DecideMeans`, `CompletedMeansOwnJobSucceeded` |
| `Deployment.dfy`, `Convergence.dfy` | build, sign, deploy over whole runs, with everybody else interfering | `DaemonSetsNamePushedImages`, `SigningGuardsDeployment`, `VisitDoes`, `SigningConverges`, `ConvergesIffFilesListed` |
| `Reconciler.dfy` | one pass over the DaemonSets | `Reconcile`, `CompletedRunTheirMapping`, `RepeatChangesNothing`, `ExactlyOneCoverage` |
| `DeployedImages.dfy` | where that pass meets the signing protocol | `DeployedDriversArePushed` |
| `Preflight.dfy` | preflight validation with a local and a stored status and failing writes | `RunPreflightValidation`, `VerifiedStays`, `RunPasses` |

Code that changes an object is a class or a method with a loop, proved against functions and predicates on values; the
lemmas are about those. Concurrent and long-running behaviour is a step relation on a `State` or `World`, with runs as
sequences of states.

## What is assumed

- Every controller has one worker. Lists of DaemonSets and jobs are current when read.
- `PodLabeler`: node reads are current. Reads of a pod may lag but do not go back, pod names are not reused, a pod keeps
  its node once scheduled, its module and kernel labels and a request to delete it, every pod is born with the finalizer,
  and nobody else removes it or writes the ready labels.
- `KernelOsDtk`: a claimed or held write lock keeps new readers out; the schedule is otherwise arbitrary.
- `SignImage`: paths below the temporary directory, and those its ".." elements lead to, are resolved lexically, without
  links; sign-file depends on the bytes of the file only; a link entry, hard or symbolic, is an entry of its own kind and
  is not followed. Within that, `SigningPreservesImage` is an equivalence: the excluded inputs are listed below.
- `Deployment`: among the finitely many templates of a run, the hash tells apart jobs that push different images or sign
  different lists of files; hashing the arguments, as the code does, is enough up to collisions
  (`HashOfArgumentsSeparates`). A signing job that succeeds with a file to sign has pushed its image, images stay in the
  registry, other owners leave this Module's sign jobs alone.
- `Reconciler`: nobody else writes the Module's DaemonSets during a pass, and its DaemonSet without a kernel label is the
  one named after the device plugin, a property each pass keeps.
- `Preflight`: the reconciler is the only writer of the status; the preflight spec is fixed. Reads may return earlier
  versions, and writes based on one are refused. Statuses are kept by module name, so the theorems speak of names.

## What turned out differently

- The API documentation says that all modules are signed when the list of files is omitted
  (`api/v1beta1/module_types.go:86`). The tool instead prints its usage and exits with status 0
  (`cmd/signimage/signimage.go:146-156`, `cmd/signimage/signimage.go:296`), so the job counts as succeeded although
  nothing was pushed. The model follows the code.
  `SigningGuardsDeployment` proves that signing protects a deployment in all runs exactly when a file is listed;
  `EmptyListDeploysMissingImage` and `EmptyListStartsOver` exhibit the runs that go wrong otherwise.
- The walk over the layers ignores whiteouts, so a file that a higher layer removed is found, signed and brought back
  (`RemovedFileComesBack`).
- A requested link is replaced by a signed empty file, as link entries have no bytes (`LinkBecomesFile`).
- When the stream of a layer fails midway, the walk takes the layer to end there and goes on to the layers below, so it can
  sign a stale copy and put it on top of the newer one, with exit status 0 (`StaleCopyPicked`).
- Files are extracted to their name below a temporary directory (`cmd/signimage/signimage.go:207`). Names that climb out
  of it, such as "../x" and "../../tmp/x", can name one temporary file for two requested paths, and then one path gets the
  other's content (`TemporaryFilesClash`). Names that do not climb are safe (`StayingBelowMeansNoClash`).
- The claim of a cluster without nodes is the empty string, which the hub reads as one kernel with an empty name
  (`ClaimRoundTrip`). If a mapping matches that name, the hub panics while taking the name apart
  (`internal/utils/replaceStrings.go:19-32`), where a loop over the nodes would have found nothing to do; hub and nodes
  agree exactly otherwise (`HubAgreesWithNodes`). More generally any kernel name of fewer than three parts panics as soon
  as a mapping matches it (`PanicsIff`).
- A job whose pod has not started yet has no counter set, and `Sync` reports an error for it rather than "in progress"
  (`UnknownStatusIffNoCounter`).
- Stripping the spec for one spoke cluster happens in place in a slice shared with the caller. `StrippingKeepsChoice`
  proves that no later lookup on that slice chooses another mapping or image; what it does lose is build and sign.
- When both the Module and the mapping have a sign section, the mapping's TLS options for the unsigned image are dropped
  (`MappingTLSSurvives`).
- In preflight, when the status of a verified module is stored and the write of its stage is lost, the entry stays
  (True, not Done) for good, as verified modules are not checked again (`StageWriteLost`, `HalfDoneStays`).
- In preflight, the last read decides about completion; if it still returns a version from before the pass, it can report
  completion of modules that were not verified (`StaleReadCompletes`).

## Model

| member | source | states |
|---|---|---|
| KernelOsDtk.KernelOsDtkMapping.SetNodeInfo | internal/syncronizedmap/syncronizedmap.go:33-39 | a lone write changes one entry of the kernel map and nothing else |
| KernelOsDtk.KernelOsDtkMapping.SetImageStreamInfo | internal/syncronizedmap/syncronizedmap.go:41-47 | a lone write sets one entry of the OS map, also where there was one, and nothing else |
| KernelOsDtk.KernelOsDtkMapping.GetImage | internal/syncronizedmap/syncronizedmap.go:49-67 | a lone read composes the two maps or names the missing link |
| KernelOsDtk.Relock | internal/syncronizedmap/syncronizedmap.go:35-36 | any lock operation that obeys the RWMutex rules keeps lock and call positions in agreement, with writers alone |
| KernelOsDtk.LocksStep | internal/syncronizedmap/syncronizedmap.go:33-67 | every step of every call keeps both locks in agreement with the positions of all calls |
| KernelOsDtk.ReadersStep | internal/syncronizedmap/syncronizedmap.go:51-60 | what GetImage read from the outer map stays true while it holds the outer lock |
| KernelOsDtk.LogStep | internal/syncronizedmap/syncronizedmap.go:33-67 | the step at which a call takes effect extends the sequential history legally |
| KernelOsDtk.RunKeepsInv | internal/syncronizedmap/syncronizedmap.go:33-67 | the invariant holds in every state of every interleaving of any number of calls |
| KernelOsDtk.Linearizable | internal/syncronizedmap/syncronizedmap.go:33-67 | every interleaving equals a legal sequential history that ends in the current maps and holds each finished call once with its reply |
| KernelOsDtk.RealTimeOrder | internal/syncronizedmap/syncronizedmap.go:33-67 | that history respects the order of calls that do not overlap |
| KernelOsDtk.LastWritesDecide | internal/syncronizedmap/syncronizedmap.go:33-67 | in the history of any run each GetImage replies by the last earlier writes: the image exactly when the last SetNodeInfo of its kernel names an OS whose last SetImageStreamInfo names that image, and each error exactly when there is no such write |
| KernelOsDtk.GetImageSeesOneState | internal/syncronizedmap/syncronizedmap.go:49-67 | a GetImage reply is both maps composed in one single state between its call and its return |
| KernelOsDtk.DeadlockFree | internal/syncronizedmap/syncronizedmap.go:49-61 | while a call is unfinished some call can step, also when a waiting writer keeps readers out |
| KernelOsDtk.StepDoesWork | internal/syncronizedmap/syncronizedmap.go:33-67 | every step lowers the work left, summed over all calls |
| KernelOsDtk.EveryScheduleEnds | internal/syncronizedmap/syncronizedmap.go:33-67 | without new calls every schedule is bounded by the work left, and when it stops every call has returned |
| PodLabeler.LabelNamesAreUnambiguous | internal/daemonset/daemonset.go:345-351 | a ready label determines the module and the kind of pod |
| PodLabeler.AppendVersion | controllers/pod_node_module_reconciler.go:140-146 | a new version of a pod keeps its history consistent, and a finalizer goes only after a deleting version was read |
| PodLabeler.ReadPodKeepsInv | controllers/pod_node_module_reconciler.go:34-70 | reading any version not older than the last one, and branching on it, keeps the invariant |
| PodLabeler.ReadNodeKeepsInv | controllers/pod_node_module_reconciler.go:122-127 | reading the node keeps the invariant, whatever else happened since the pod was read |
| PodLabeler.LabelKeepsInv | controllers/pod_node_module_reconciler.go:129-138 | the label is added to the node as it is now, and only while a pod that yields it is held there |
| PodLabeler.UnlabelKeepsInv | controllers/pod_node_module_reconciler.go:148-160 | removing a label, or patching nothing, keeps the invariant |
| PodLabeler.UnfinalizeKeepsInv | controllers/pod_node_module_reconciler.go:77-87 | the finalizer goes only when the label it backed is not on the node |
| PodLabeler.PatchSendsDifference | controllers/pod_node_module_reconciler.go:129-138 | a patch sets the label as wanted, or nothing if it already was so when the node was read |
| PodLabeler.OthersInterfere | controllers/pod_node_module_reconciler.go:102-120 | between any two API calls pods may appear, turn ready or not, be scheduled, be asked to go and go, and nodes come, go and change |
| PodLabeler.RunKeepsInv | controllers/pod_node_module_reconciler.go:34-99 | the invariant holds in every state of every run with pods and nodes changing between the worker's steps |
| PodLabeler.BackingPodIsOfTheModule | internal/daemonset/daemonset.go:310-316 | a pod that backs a module's label is a pod of that module and of that kind |
| PodLabeler.ReadyLabelMeansPod | controllers/pod_node_module_reconciler.go:70-98 | in every reachable state a node carries a module's ready label only while a pod of that module and kind exists on it with its finalizer |
| PodLabeler.ReconcileEnds | controllers/pod_node_module_reconciler.go:34-99 | any pod, read at any version not older than the last, can be reconciled in four API calls at most |
| PodLabeler.UndisturbedContinues | controllers/pod_node_module_reconciler.go:34-99 | such a reconciliation continues any run |
| PodLabeler.ReconcileSettlesNode | controllers/pod_node_module_reconciler.go:49-98 | a reconciliation left to itself adds exactly the pod's ready label to its node if the pod is ready and not being deleted, and otherwise takes exactly it away; the finalizer goes only then, for a pod being deleted; a missing node or module name changes nothing |
| NodeLabels.RegisterNode | controllers/node_kernel_reconciler.go:53-76 | the node is labelled with its kernel without the trailing plus, and that kernel's OS is registered, also when the patch then fails |
| NodeLabels.LabelledBecomesTarget | controllers/node_kernel_reconciler.go:72 | labelling makes a selected node a target exactly when the selector does not ask for another kernel label |
| NodeLabels.PodsAreBornHeld | internal/daemonset/daemonset.go:208-213 | pods of the DaemonSets a pass writes are born with the finalizer and yield the label of their kind |
| NodeLabels.DevicePluginFollowsDriver | internal/daemonset/daemonset.go:300 | after a pass, wherever the device plugin's selector matches, in any state of any labelling run, a held module-loader pod of the module exists |
| Text.RoundTrip | internal/cluster/cluster.go:194 | splitting a join gives the list back exactly when it is not empty and no part holds the separator |
| Text.JoinOfSplit | internal/cluster/cluster.go:194 | joining what was split gives any string back |
| Text.ListsUnique | controllers/node_kernel_clusterclaim.go:59-68 | a set has only one sorted listing without repetition |
| Text.Sort | controllers/node_kernel_clusterclaim.go:68 | sorting yields the sorted listing of the same strings |
| Text.AtMostMeans | controllers/node_kernel_clusterclaim.go:68 | a string is at most another exactly when it is smaller where they first differ, or a prefix |
| Text.TrimPlusMeans | controllers/node_kernel_reconciler.go:53 | a trailing plus goes, one only, and nothing else |
| Paths.ComponentsAreClean | cmd/signimage/signimage.go:166-168 | no empty, "." or ".." component and no slash within one survives |
| Paths.ComponentsAppend | cmd/signimage/signimage.go:166-168 | one more element of a path stays, steps up but not above the root, or steps down |
| Paths.CanonicalIsIdempotent | cmd/signimage/signimage.go:166-168 | canonicalising twice is canonicalising once |
| Paths.FixedPoints | cmd/signimage/signimage.go:315-319 | the paths accepted for signing are exactly the rooted strings with plain components |
| Paths.SameKey | cmd/signimage/signimage.go:196 | two names share a key exactly when they resolve to the same path |
| Paths.SpellingsShareKey | cmd/signimage/signimage.go:158-165 | "p", "./p" and "/p" get one key |
| Registry.ExtractBytesFromTar | internal/registry/registry.go:368-383 | whatever the sizes of the reads the in-place fill ends; it fails exactly when a read failed, and otherwise has exactly the entry's bytes |
| Overlay.VisibleIffUndisturbed | internal/registry/registry.go:301-302 | an entry is what the flattened filesystem shows at its path exactly when nothing applied later takes the path away |
| Overlay.StackWellFormed | internal/registry/registry.go:301-302 | in the flattened filesystem nothing lies below anything but a directory |
| Overlay.StackOfPrefix | internal/registry/registry.go:302 | an appended layer leaves the stack below it as it was |
| Overlay.NamesHide | internal/registry/registry.go:301-302 | which names hide which paths of the layers below: whiteouts, opaque whiteouts, and no others |
| Overlay.StackFromImage | internal/registry/registry.go:301-302 | everything shown is an entry of the image, at the path of its name |
| SignImage.Signer.ProcessFile | cmd/signimage/signimage.go:187-224 | only a wanted entry is extracted and signed, to the place its name leads to, and only its canonical key changes; it fails exactly when that entry cannot be extracted or signed |
| SignImage.StepTracks | cmd/signimage/signimage.go:199-220 | one entry more keeps the map equal to the picks so far |
| SignImage.StepFails | cmd/signimage/signimage.go:207-218 | a wanted entry that cannot be extracted or signed is the pick of a requested path |
| SignImage.StepFiles | cmd/signimage/signimage.go:207-215 | every temporary file holds the signed form of some pick that was extracted to it, also when another one is overwritten |
| SignImage.Signer.WalkLayer | internal/registry/registry.go:349-359 | walking a layer, up to its end or to a failure of its stream, extends the picks to what was read of it, or stops at a requested entry that cannot be extracted and signed |
| SignImage.Signer.WalkFilesInImage | internal/registry/registry.go:333-363 | the walk succeeds exactly when every layer can be opened and every pick of what is read can be extracted and signed, also when streams fail midway, and then the map names the file of each pick |
| SignImage.RegisterFiles | cmd/signimage/signimage.go:314-321 | the files are registered as missing exactly when all of them are canonical |
| SignImage.AssembleLayer | cmd/signimage/signimage.go:346-361 | in any map order the layer holds each requested file once with what its temporary file holds, or some file was not found |
| SignImage.SignAndAppend | cmd/signimage/signimage.go:296-373 | which outcome the tool has for every list, image and run, and on success exactly the requested paths in one layer more, written from the temporary files |
| SignImage.WrittenIsSigned | cmd/signimage/signimage.go:207-215 | the layer holds every pick's own signed form exactly when no two picks clash on a temporary file |
| SignImage.StayingBelowMeansNoClash | cmd/signimage/signimage.go:207 | picks whose names do not climb out of the temporary directory never clash |
| SignImage.TemporaryFilesClash | cmd/signimage/signimage.go:207 | two well-picked files named "../x" and "../../tmp/x" do clash |
| SignImage.PickMeans | internal/registry/registry.go:338-359 | the pick is the entry met first from the top layer down and within a layer from the front; there is none only if no entry has that path |
| SignImage.PickIsVisible | internal/registry/registry.go:338-359 | a pick, also of layers read only in part, is the entry the overlay of the whole image shows exactly when nothing disturbs that entry |
| SignImage.VisibleIsPicked | internal/registry/registry.go:338-359 | what the flattened filesystem shows at a path is picked, when no layer has two entries for a path |
| SignImage.TopLayerReplaces | internal/registry/registry.go:301-302 | appending regular files over visible paths with nothing below them replaces those and nothing else |
| SignImage.SigningPreservesImage | cmd/signimage/signimage.go:338-373 | the flattened filesystem keeps its paths and all unrequested content, and each requested path showed a regular file and now shows its signed form, if and only if every pick is an undisturbed regular file and no two clash |
| SignImage.ToolPreservesImage | cmd/signimage/signimage.go:296-373 | the same equivalence for whatever image the tool returns, in every run |
| SignImage.PickedWellMeansShown | internal/registry/registry.go:338-359 | in such an image a path is picked well exactly when a regular file is shown there |
| SignImage.WholeImagePreserved | cmd/signimage/signimage.go:296-373 | for such an image, read whole, signing preserves it exactly when every requested path shows a regular file and no two picks clash |
| SignImage.LinkBecomesFile | internal/registry/registry.go:388-403 | a requested link is undisturbed, and still a signed empty file takes its place |
| SignImage.StaleCopyPicked | internal/registry/registry.go:351-354 | when the stream of an upper layer fails, the stale copy of a lower layer is picked and signed |
| SignImage.RemovedFileComesBack | internal/registry/registry.go:338-359 | a file removed by a higher layer is still picked and comes back |
| SignArgs.MakeArgs | internal/sign/job/signer.go:74-109 | the tool's flag parser reads exactly the template's settings out of the built arguments |
| SignArgs.SettingsHoldTemplate | internal/sign/job/signer.go:76-101 | these settings hold the images, the joined file list and the fixed paths, so that only an empty file list stops the tool |
| SignArgs.SwitchesHoldTemplate | internal/sign/job/signer.go:79-109 | each switch is on exactly when its option is, and pull and push options are not mixed up |
| SignArgs.HeadOfValue | internal/sign/job/signer.go:74-109 | an argument "-name=value" is read as that flag with that value, whatever the value holds |
| SignArgs.JobArgs | internal/sign/job/signer.go:74-109 | from the signing data to what the tool reads, flag by flag: the built image is signed, or the configured one if none was built, and it is pushed as the container image with the registry's TLS options and pulled with those of the unsigned image; refused exactly when there is no image |
| SignArgs.RunTool | cmd/signimage/signimage.go:292-299 | a parse error, help, a missing argument or the run proper on the image pulled by the given name and options, and where the result is pushed, for every argument list |
| SignArgs.IncompleteMeans | cmd/signimage/signimage.go:146-156 | the four arguments, besides the list of files, without which the tool prints its usage |
| SignArgs.RunJob | cmd/signimage/signimage.go:261-373 | from the signing data to the pushed image: exactly the configured files of the built image, or of the configured one if none was built, are signed, and the result is pushed as the container image exactly when pushing was asked for; refused exactly when there is no image to sign |
| SignArgs.MergedFiles | internal/sign/helper.go:41-54 | the merged list is the module's files followed by the mapping's, each substituted |
| SignArgs.RequestedIsList | cmd/signimage/signimage.go:315 | the list arrives as sent exactly when it is not empty and no path holds a colon |
| SignArgs.FilesSurvive | cmd/signimage/signimage.go:314-361 | a portable list ends up, exactly, in the appended layer or the tool dies for a stated reason, and the layer is signed correctly exactly when no picks clash; a list with another form of path is refused; the tool does nothing successfully exactly for an empty list |
| KernelMapper.Choose | internal/module/kernelmapper.go:67-85 | the first mapping that does not say no decides: it matches, or its regexp is bad; otherwise there is none |
| KernelMapper.DecidesMeans | internal/module/kernelmapper.go:67-85 | that mapping is the first with the kernel as its literal or with a matching regexp, where no regexp before it is bad |
| KernelMapper.FindKernelMapping | internal/module/kernelmapper.go:67-85 | the loop finds that mapping |
| KernelMapper.ReplaceInTemplates | internal/utils/replaceStrings.go:34-48 | all results in order, or failure exactly when one template fails |
| KernelMapper.GetRelevantSign | internal/sign/helper.go:21-57 | the in-place overwriting yields the merged and substituted configuration, an error, or the panic on a kernel name of fewer than three parts |
| KernelMapper.MappingTLSSurvives | internal/sign/helper.go:29-42 | the mapping's TLS options for the unsigned image survive exactly when the module has no sign section or the same options |
| KernelMapper.GetModuleLoaderDataForKernel | internal/module/kernelmapper.go:31-137 | the field-by-field preparation yields the lookup that the following members are about |
| KernelMapper.LookupSigns | internal/sign/helper.go:21-57 | a kernel is signed exactly when the deciding mapping or the module has a sign section; keys and unsigned image are the mapping's where it sets them, the TLS options the module's if it has a section, the files those of both, substituted |
| KernelMapper.LookupFields | internal/module/kernelmapper.go:87-137 | built exactly when either has a build section; image and registry TLS are the mapping's where set, the image substituted; everything else is the module's |
| KernelMapper.LookupOutcome | internal/module/kernelmapper.go:39-57 | a lookup succeeds exactly when a mapping decides for the kernel, the kernel can be taken apart and every template needed can be substituted; and when each error is given |
| KernelMapper.ParsesMeans | internal/utils/replaceStrings.go:19-32 | a kernel name of three parts can be taken apart, one of fewer cannot |
| KernelMapper.LookupKeepsKernel | internal/module/kernelmapper.go:116 | a kernel's data carries that kernel |
| KernelMapper.PanicsIff | internal/utils/replaceStrings.go:19-32 | a lookup panics exactly when a mapping is chosen for a kernel name that has fewer than three parts |
| KernelMapper.StripForSpoke | internal/manifestwork/manifestwork.go:103-111 | the shared mappings are all stripped in place, and what the slice holds after each single assignment is ms with some builds and signs gone |
| KernelMapper.StrippingKeepsChoice | internal/manifestwork/manifestwork.go:107-111 | in every one of those states a lookup chooses the same mapping with the same image and TLS |
| KernelMapper.StrippingPreservesMeaning | internal/manifestwork/manifestwork.go:103-125 | the spoke resolves what the hub resolves, without build and sign; it resolves exactly when a mapping matches, the kernel has three parts and the image name can be substituted; and it panics exactly when the hub does |
| Hub.PublishClaim | controllers/node_kernel_clusterclaim.go:53-82 | the claim is the joined sorted listing of the nodes' distinct kernels |
| Hub.ClaimIsCanonical | controllers/node_kernel_clusterclaim.go:59-61 | node lists with the same kernels publish the same string |
| Hub.ClaimRoundTrip | internal/cluster/cluster.go:189-197 | splitting the claim gives the sorted distinct kernels exactly when there is a kernel and none holds a newline |
| Hub.KernelVersions | internal/cluster/cluster.go:189-197 | the first claim of that name is split, and it fails exactly when there is none |
| Hub.KernelMappingsByKernelVersion | internal/cluster/cluster.go:157-186 | the caching loop gives what looking up every kernel directly gives, and panics exactly when one of those lookups does |
| Hub.HubAgreesWithNodes | internal/cluster/cluster.go:147-187 | the hub does the same as the loop over the nodes, panics included, exactly when there is a node or no mapping matches the empty kernel |
| Hub.BuildAndSign | internal/cluster/cluster.go:86-141 | ready exactly when there is a mapping and every kernel is built and signed, an error exactly when some kernel errs, in any order |
| SignJobs.JobManager.OwnedJobs | internal/utils/jobhelper.go:155-163 | exactly the owner's jobs for the module, kernel and type, each once |
| SignJobs.JobManager.GetModuleJobByKernel | internal/utils/jobhelper.go:67-83 | the only such job, none, or an error when there are several |
| SignJobs.JobManager.Sync | internal/sign/job/manager.go:72-127 | the outcome and the new jobs for every case; at most one job per key stays; jobs of other owners, kernels and types are untouched |
| SignJobs.JobManager.GarbageCollect | internal/sign/job/manager.go:38-55 | succeeded sign jobs of the owner's module go and no others; it fails exactly when the list does or one of them cannot be deleted |
| SignJobs.CompletedMeansOwnJobSucceeded | internal/sign/job/manager.go:97-127 | completed exactly when the one job this owner controls has the current template's hash and succeeded |
| SignJobs.OnlyOwnJobsCount | internal/utils/jobhelper.go:67-83 | jobs of another owner, kernel, type or namespace have no influence, so a preflight job never counts for a Module |
| SignJobs.UnknownStatusIffNoCounter | internal/utils/jobhelper.go:116-127 | a sync errs on the status exactly when the one job is current and none of its counters is one, as for a job just created |
| SignJobs.DecideMeans | internal/sign/job/manager.go:97-127 | every decision by the jobs' own fields: none, stale, succeeded, active, failed, not annotated, unknown, too many |
| SignJobs.CollectableMeans | internal/sign/job/manager.go:38-55 | which jobs are collected: the owner's succeeded sign jobs of the module, for any kernel |
| Deployment.RequestsAreConsistent | controllers/module_reconciler.go:334-343 | what is asked to be signed is pushed under the name that will be deployed |
| Deployment.RequestMeans | controllers/module_reconciler.go:325-343 | what is asked for, by the fields of the mapping's data: what is deployed, whether it is signed, from which image, and with which options and files |
| Deployment.StepKeepsNoDuplicates | internal/sign/job/manager.go:97-113 | every step keeps at most one own job per kernel, also between listing and creating |
| Deployment.CompletedIsBacked | internal/sign/job/manager.go:115-127 | a completed job of the current template has pushed the request's image |
| Deployment.HashOfArgumentsSeparates | internal/sign/job/signer.go:279-290 | a hash that, among the templates of the run, tells apart what the tool reads from the arguments is enough for every result about jobs |
| Deployment.RunKeepsInv | controllers/module_reconciler.go:141-180 | the invariant holds in every state of every run |
| Deployment.VisitEnds | controllers/module_reconciler.go:141-168 | every request that can be deployed can be visited to the end, in four steps at most |
| Deployment.VisitDoes | controllers/module_reconciler.go:325-384 | a visit left to itself deploys when no signing is asked for, the image is there or the own job succeeded; creates exactly the request's job when there is none; deletes a stale one; and otherwise changes nothing |
| Deployment.DaemonSetsNamePushedImages | controllers/module_reconciler.go:141-168 | in every reachable state a DaemonSet written for a mapping that asked for signing, and lists a file or has nothing that could be signed, names an image in the registry, also after its job was collected |
| Deployment.EmptyListDeploysMissingImage | cmd/signimage/signimage.go:296 | without a file to sign a run reaches a DaemonSet whose image is missing |
| Deployment.SigningGuardsDeployment | controllers/module_reconciler.go:325-384 | signing guards a deployable request in all runs if and only if it lists a file |
| Convergence.RankAlongStep | controllers/module_reconciler.go:325-357 | no step raises the rank of a fixed request, and every creation, deletion or move of its job lowers it |
| Convergence.SigningConverges | internal/sign/job/manager.go:38-127 | from any reachable world, along any schedule with the request now fixed, at most six actions are spent on its job, across garbage collection |
| Convergence.RankSaysWhatIsLeft | internal/sign/job/manager.go:97-127 | at rank 0 the image is there or the job has finished; above 0 the job can move or the next sync acts |
| Convergence.VisitAtRankZeroDeploys | controllers/module_reconciler.go:141-168 | at rank 0, unless the job failed, the next undisturbed visit deploys the request |
| Convergence.EmptyListStartsOver | internal/sign/job/manager.go:38-55 | with no file to sign, collecting the succeeded job makes signing start over |
| Convergence.ConvergesIffFilesListed | internal/sign/job/manager.go:38-127 | over all reachable worlds and steps with the request fixed, signing never starts over if and only if the request has an image and lists a file |
| DeployedImages.DriverRunsRequest | internal/daemonset/daemonset.go:134 | what a driver of a completed kernel runs after a pass is the image the request for its mapping asks to be deployed |
| DeployedImages.DeployedDriversArePushed | controllers/module_reconciler.go:141-168 | so the drivers a pass writes run pushed images: whatever the run that wrote the kernel's DaemonSet for that mapping, if it asks for signing and lists a file the image is in the registry |
| Reconciler.DesiredDriver | internal/daemonset/daemonset.go:105-124 | a driver DaemonSet is only ever made for a kernel and an image that are not empty, and carries both |
| Reconciler.Cluster.ModuleDaemonSetsByKernelVersion | internal/daemonset/daemonset.go:73-93 | the index of the module's DaemonSets, or failure exactly when two share a kernel or the list fails |
| Reconciler.Cluster.HandleDriverContainer | controllers/module_reconciler.go:359-384 | the kernel's DaemonSet is created or patched as desired, nothing else changes, and one per kernel remains |
| Reconciler.Cluster.HandleMapping | controllers/module_reconciler.go:141-168 | a mapping's DaemonSet is written only when its build and its signing are both complete; errors change nothing |
| Reconciler.HandleableMeans | controllers/module_reconciler.go:141-168 | the only ways a mapping fails without an API call failing: building or signing errs, or a DaemonSet is due and has no image or kernel |
| Reconciler.Cluster.HandleDevicePlugin | controllers/module_reconciler.go:386-405 | the device plugin is created or patched as desired and nothing else changes |
| Reconciler.Cluster.DeployCompleted | controllers/module_reconciler.go:141-168 | in any order exactly the completed kernels are written, with one DaemonSet per kernel after each call |
| Reconciler.Cluster.GarbageCollect | internal/daemonset/daemonset.go:57-71 | only drivers of invalid kernels are deleted, on success all of them |
| Reconciler.Cluster.Reconcile | controllers/module_reconciler.go:131-180 | the set equation on success; at every API call one DaemonSet per kernel, nothing created in the pass is deleted and nothing kept is missing; with working writes it succeeds exactly when the list is sound and no mapping errs |
| Reconciler.PassReconciles | controllers/module_reconciler.go:141-180 | writing and collecting together give driver kernels (before and valid) or completed, and keep the rest |
| Reconciler.CompletedRunTheirMapping | internal/daemonset/daemonset.go:105-218 | after a successful pass every completed kernel has a driver, and each of its drivers runs the container image of the kernel's data on the nodes it selects, with the finalizer on its pods |
| Reconciler.DevicePluginRuns | internal/daemonset/daemonset.go:229-306 | and the device plugin runs its image on the nodes with the module's ready label, with the finalizer on its pods |
| Reconciler.OnlyInvalidVanish | controllers/module_reconciler.go:407-418 | whatever existed on the way and is gone was an outdated driver from before the pass, and what is kept was never away |
| Reconciler.RepeatChangesNothing | controllers/module_reconciler.go:103-190 | a second pass with the same outcomes leaves every DaemonSet as it is |
| Reconciler.RepeatLeavesAllInPlace | controllers/module_reconciler.go:103-190 | nor does it on the way: at every API call of the second pass the same DaemonSets exist |
| Reconciler.IsNodeSchedulable | controllers/module_reconciler.go:509-516 | true exactly when the node has no NoSchedule taint |
| Reconciler.SchedulableNodes | controllers/module_reconciler.go:284-291 | the selected nodes without that taint, in their order |
| Reconciler.RelevantKernelMappingsAndNodes | controllers/module_reconciler.go:234-272 | the memoised loop gives the mappings and nodes that looking up every node directly gives, and panics exactly when one of those lookups does |
| Reconciler.ExactlyOneCoverage | controllers/module_reconciler.go:234-292 | after a pass with every mapped kernel completed, each labelled target is matched by exactly one driver DaemonSet if its kernel has a mapping and by none otherwise |
| Preflight.VerifyImage | internal/preflight/preflight.go:139-154 | verified exactly when some layer has the module and every layer above it is readable and lacks it |
| Preflight.TopmostDecides | internal/preflight/preflight.go:139-154 | below layers that lack the module, the next layer decides: it has the module, it cannot be read, or the rest decides |
| Preflight.PreflightReconciler.PresetStatuses | internal/statusupdater/statusupdater.go:150-167 | entries of vanished modules go, new ones are added unverified, the rest stay; one version more is stored exactly when the write is neither refused nor lost |
| Preflight.PreflightReconciler.UpdateStatus | internal/statusupdater/statusupdater.go:166 | a write stores the copy, is refused for an outdated copy, is lost, or is stored unheard, and says so only in the first case |
| Preflight.PreflightReconciler.SetVerificationStatus | internal/statusupdater/statusupdater.go:169-178 | one entry's status changes in the copy, and one such write follows |
| Preflight.PreflightReconciler.SetVerificationStage | internal/statusupdater/statusupdater.go:180-188 | one entry's stage changes in the copy, and one such write follows |
| Preflight.PreflightReconciler.UpgradeCheck | internal/preflight/preflight.go:55-99 | verified exactly when the image is good or everything asked for was built and signed; every version stored on the way differs only in that module's stage |
| Preflight.VerifiesMeans | internal/preflight/preflight.go:55-99 | what image, build and sign each contribute to the answer, case by case |
| Preflight.PreflightReconciler.UpdatePreflightStatus | controllers/preflightvalidation_reconciler.go:179-196 | the entry becomes (True, Done) or (False, Requeued); every version stored on the way has it marked as answered |
| Preflight.ListNames | controllers/preflightvalidation_reconciler.go:202-213 | the names of the undeleted modules, and those of them without an entry |
| Preflight.PreflightReconciler.PresetModulesStatuses | controllers/preflightvalidation_reconciler.go:198-215 | the copy has exactly the undeleted modules, old entries kept and new ones unverified |
| Preflight.PresetMeans | controllers/preflightvalidation_reconciler.go:198-215 | the same name by name: which have an entry, the old entry or (False, Image stage) |
| Preflight.Filter | controllers/preflightvalidation_reconciler.go:166-175 | the undeleted modules whose entry is not verified, in order |
| Preflight.UnverifiedOneMore | controllers/preflightvalidation_reconciler.go:166-175 | each module is kept or left out on its own and the order stays |
| Preflight.PreflightReconciler.GetModulesToCheck | controllers/preflightvalidation_reconciler.go:152-177 | those modules once the preset has been stored, or an error exactly when its write was refused or failed |
| Preflight.PreflightReconciler.CheckModules | controllers/preflightvalidation_reconciler.go:139-147 | however writes fail, entries marked verified in the copy and in every stored version have a check that said so, and verified ones are not rechecked |
| Preflight.AllTrue | controllers/preflightvalidation_reconciler.go:224-231 | true exactly when every entry is verified, in any order |
| Preflight.FreshReadIsSound | controllers/preflightvalidation_reconciler.go:217-231 | a version stored in this pass in which all is verified has exactly the listed names, each with a positive check |
| Preflight.PreflightReconciler.RunPreflightValidation | controllers/preflightvalidation_reconciler.go:131-150 | the answer is about the version the last read returns; if that is one of this pass, completed means the stored names are exactly the listed ones and each had a positive check; verified entries stay; an outdated first read changes nothing; with accepted writes every entry ends (True, Done) or (False, Requeued) exactly when the kept ones were |
| Preflight.EntriesEndSettled | controllers/preflightvalidation_reconciler.go:179-196 | no entry is left half-way, unless a verified one that is not checked was before |
| Preflight.VerifiedStays | controllers/preflightvalidation_reconciler.go:166-176 | over any run a verified module stays so and is never checked again while no listing lacks it |
| Preflight.RunPasses | controllers/preflightvalidation_reconciler.go:95-129 | any number of passes form such a run, each completion after a fresh read is sound, and with accepted writes settled entries end settled |
| Preflight.StageWriteLost | controllers/preflightvalidation_reconciler.go:187-195 | when the write of the stage is lost after that of the status, the entry is (True, not Done) |
| Preflight.HalfDoneStays | controllers/preflightvalidation_reconciler.go:172-174 | and stays so in every later pass that lists the module, as verified modules are not rechecked |
| Preflight.StaleReadCompletes | controllers/preflightvalidation_reconciler.go:217-231 | a last read of an earlier version can report completion although a module did not verify |

## Left out

- Builds (`internal/build`): their outcomes are inputs; nothing is claimed about what a build pushes.
- Regexp matching, envsubst, the job hash, and sign-file: deterministic unknown functions. Preflight takes a found mapping as an input, without the panic on a kernel name of fewer than three parts.
- Kubernetes client, caches and watches, HTTP, registries, tar encoding, authentication, metrics, logging, status messages and timestamps, volumes and secrets of the jobs.
- Links inside an image are not followed; a path is lexical.
- The signing tool's deaths on file-system errors other than a refused extraction, and on a failing push, are not modelled.
- The branch of `processFile` for an empty list of files: main exits before it.
- `sort.Strings` and `sync.RWMutex` are modelled by what they do, not by their own code.
- Text.Sort: stands for the library's sorting of distinct strings; the algorithm is not the library's.
- KernelOsDtk.KernelOsDtkMapping.GetImage: the class is the lone-caller view; interleaving is in the step relation, so aliasing of one object by several goroutines is captured there and not in the class.
- The step relations of PodLabeler, Deployment and KernelOsDtk are on values, so that other actors can step in between; each API call, lock operation or map access is one atomic step.
- Deployment.RunKeepsInv: jobs move through pending, active, then succeeded or failed once; job names are not reused by the API server while their job exists.
- That every pass of the labelling controller eventually happens, and that a pod on a removed node ever loses its finalizer, is not claimed.
- Load and unload commands of the driver container, image-name surgery, and the intermediate image's name.
- The OpenShift variant of preflight, the hub's own reconciler around `BuildAndSign`, and module status conditions.
