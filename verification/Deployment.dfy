/**
 Build, sign, deploy over whole runs (controllers/module_reconciler.go with the sign manager): one worker reconciling
 one Module, one API call per step, while jobs progress, other owners create and delete jobs, users delete jobs, and
 images appear in the registry.

 A signing job that succeeds has pushed its image, unless its list of files is empty: then the tool prints its usage
 and exits with status 0. Images are never removed from the registry, and job names are not reused.
 */
module Deployment {
  import opened Base
  import opened KernelMapper
  import opened SignJobs
  import SignArgs

  // ---- What the worker is asked to do ------------------------------------------------------------------

  /** NotAsked: the mapping has no sign section. NoSource: there is no image to sign, so no job can be made. */
  datatype Signing = NotAsked | NoSource | Asked(template: Template)

  datatype Request = Request(kernel: string, image: string, signing: Signing)

  /** The request of one kernel in one pass. */
  function RequestFor(mld: ModuleLoaderData, intermediateImage: string, secrets: string): Request {
    Request(mld.kernelVersion, mld.containerImage,
            if mld.sign.None? then NotAsked
            else
              var t := MakeJobTemplate(mld, if mld.build.Some? then intermediateImage else "", true, secrets);
              if t.None? then NoSource else Asked(t.value))
  }

  predicate Consistent(r: Request) {
    r.signing.Asked? ==> r.signing.template.push && r.signing.template.signedImage == r.image
  }

  lemma RequestsAreConsistent(mld: ModuleLoaderData, intermediateImage: string, secrets: string)
    ensures Consistent(RequestFor(mld, intermediateImage, secrets))
  {
  }

  /**
   What is asked for, by the fields of the data: the container image is deployed; it is signed if there is a sign
   section, from the intermediate image if there is a build, otherwise from the configured unsigned image.
   */
  lemma RequestMeans(mld: ModuleLoaderData, intermediateImage: string, secrets: string)
    ensures var r := RequestFor(mld, intermediateImage, secrets);
      var source := if mld.build.Some? && intermediateImage != "" then intermediateImage
                    else if mld.sign.Some? then mld.sign.value.unsignedImage else "";
      && r.kernel == mld.kernelVersion && r.image == mld.containerImage
      && (r.signing.NotAsked? <==> mld.sign.None?)
      && (r.signing.NoSource? <==> mld.sign.Some? && source == "")
      && (r.signing.Asked? ==>
          && r.signing.template.unsignedImage == source
          && r.signing.template.push && r.signing.template.signedImage == mld.containerImage
          && r.signing.template.pushTLS == mld.registryTLS
          && r.signing.template.pullTLS == mld.sign.value.unsignedTLS
          && r.signing.template.filesToSign == mld.sign.value.filesToSign)
  {
  }

  /** A successful run of the tool with these arguments has pushed the signed image. */
  predicate Pushes(t: Template) {
    t.push && t.signedImage != "" && FilesArgument(t) != ""
  }

  /** The DaemonSet for this request must not name an image that is not there. */
  predicate MustBePushed(r: Request) {
    r.signing.Asked? && r.image != "" && FilesArgument(r.signing.template) != ""
  }

  /** A DaemonSet is refused for an empty kernel or image. */
  predicate Deployable(r: Request) {
    r.kernel != "" && r.image != ""
  }

  // ---- The world and its steps ---------------------------------------------------------------------------

  /**
   The Module being reconciled, the hash of job templates, and the finitely many templates ever asked for in a run.
   */
  datatype Setup = Setup(
    name: string, namespace: string, owner: string, hash: Template -> string, templates: set<Template>)

  /** A request of this Module. */
  predicate Known(me: Setup, r: Request) {
    Consistent(r) && (r.signing.Asked? ==> r.signing.template in me.templates)
  }

  function KeyOf(me: Setup, r: Request): Key {
    Key(me.namespace, Labels(me.name, r.kernel, JOB_TYPE_SIGN), me.owner)
  }

  /** A sign job controlled by this Module. */
  predicate Own(me: Setup, job: Job) {
    job.controller == Some(me.owner) && job.labels.jobType == JOB_TYPE_SIGN
  }

  datatype Pc =
    | Idle
    | Choosing(todo: set<Request>)
    | CheckingImage(r: Request, todo: set<Request>)
    | Listing(r: Request, todo: set<Request>)
    | Creating(r: Request, todo: set<Request>)
    | Deleting(r: Request, job: string, todo: set<Request>)
    | Deploying(r: Request, todo: set<Request>)
    | Collecting

  /** daemonSets: the request each kernel's driver DaemonSet was last written for. */
  datatype World = World(images: set<string>, jobs: map<string, Job>, daemonSets: map<string, Request>, pc: Pc)

  datatype Action =
    // the worker
    | Begin(requests: set<Request>)
    | Visit(visited: Request, built: bool)
    | QueryImage
    | ListJobs
    | CreateJob(name: string)
    | DeleteJob(acknowledged: bool)
    | Deploy
    | Finish
    | CollectDaemonSet(kernel: string)
    | CollectJob(name: string)
    | Abandon
    // everybody else
    | JobProgress(name: string, status: JobStatus)
    | ImagePushed(image: string)
    | OthersChangeJobs(jobs: map<string, Job>)
    | UserDeletesJob(name: string)

  const PENDING := JobStatus(0, 0, 0)
  const ACTIVE := JobStatus(0, 1, 0)
  const SUCCEEDED := JobStatus(1, 0, 0)
  const FAILED := JobStatus(0, 0, 1)

  /** How a job with one completion and no retries moves on. */
  predicate MovesOn(before: JobStatus, after: JobStatus) {
    (before == PENDING && after == ACTIVE) || (before == ACTIVE && (after == SUCCEEDED || after == FAILED))
  }

  /** After the listing of Sync. */
  ghost function AfterListing(me: Setup, w: World, r: Request, todo: set<Request>): Pc {
    if !r.signing.Asked? then Idle
    else match Decide(w.jobs, KeyOf(me, r), me.hash(r.signing.template))
      case Create => Creating(r, todo)
      case Replace(n) => Deleting(r, n, todo)
      case Report(Completed) => Deploying(r, todo)
      case Report(_) => Choosing(todo)
      case Fail(_) => Idle
  }

  ghost predicate WorkerStep(me: Setup, w: World, a: Action, w': World) {
    match a
    case Begin(requests) =>
      w.pc.Idle? && (forall r :: r in requests ==> Known(me, r)) && w' == w.(pc := Choosing(requests))
    case Visit(r, built) =>
      && w.pc.Choosing? && r in w.pc.todo
      && w' == w.(pc := if !built then Choosing(w.pc.todo - {r})
                        else if r.signing.NotAsked? then Deploying(r, w.pc.todo - {r})
                        else CheckingImage(r, w.pc.todo - {r}))
    case QueryImage =>
      && w.pc.CheckingImage?
      && w' == w.(pc := if w.pc.r.image in w.images then Deploying(w.pc.r, w.pc.todo) else Listing(w.pc.r, w.pc.todo))
    case ListJobs => w.pc.Listing? && w' == w.(pc := AfterListing(me, w, w.pc.r, w.pc.todo))
    case CreateJob(name) =>
      && w.pc.Creating? && w.pc.r.signing.Asked? && name !in w.jobs
      && var t := w.pc.r.signing.template;
         w' == w.(jobs := w.jobs[name := NewJob(KeyOf(me, w.pc.r), t, me.hash(t))], pc := Choosing(w.pc.todo))
    case DeleteJob(acknowledged) =>
      && w.pc.Deleting?
      && var gone := acknowledged && w.pc.job in Matching(w.jobs, KeyOf(me, w.pc.r));
         w' == w.(jobs := if gone then w.jobs - {w.pc.job} else w.jobs, pc := Choosing(w.pc.todo))
    case Deploy =>
      && w.pc.Deploying? && Deployable(w.pc.r)
      && w' == w.(daemonSets := w.daemonSets[w.pc.r.kernel := w.pc.r], pc := Choosing(w.pc.todo))
    case Finish => w.pc == Choosing({}) && w' == w.(pc := Collecting)
    case CollectDaemonSet(kernel) => w.pc.Collecting? && w' == w.(daemonSets := w.daemonSets - {kernel})
    case CollectJob(name) =>
      && w.pc.Collecting? && name in w.jobs && Collectable(w.jobs[name], me.name, me.namespace, me.owner)
      && w' == w.(jobs := w.jobs - {name})
    case Abandon => w' == w.(pc := Idle)
    case _ => false
  }

  ghost predicate EnvStep(me: Setup, w: World, a: Action, w': World) {
    match a
    case JobProgress(name, status) =>
      && name in w.jobs && MovesOn(w.jobs[name].status, status)
      && var t := w.jobs[name].template;
         w' == w.(jobs := w.jobs[name := w.jobs[name].(status := status)],
                  images := if status == SUCCEEDED && Pushes(t) then w.images + {t.signedImage} else w.images)
    case ImagePushed(image) => w' == w.(images := w.images + {image})
    case OthersChangeJobs(jobs) => SameOwnJobs(me, w.jobs, jobs) && w' == w.(jobs := jobs)
    case UserDeletesJob(name) => w' == w.(jobs := w.jobs - {name})
    case _ => false
  }

  /** Other owners, including a preflight validation of the same Module, leave this Module's sign jobs alone. */
  ghost predicate SameOwnJobs(me: Setup, jobs: map<string, Job>, jobs': map<string, Job>) {
    && (forall n :: n in jobs && Own(me, jobs[n]) ==> n in jobs' && jobs'[n] == jobs[n])
    && (forall n :: n in jobs' && Own(me, jobs'[n]) ==> n in jobs && jobs[n] == jobs'[n])
  }

  ghost predicate Step(me: Setup, w: World, a: Action, w': World) {
    WorkerStep(me, w, a, w') || EnvStep(me, w, a, w')
  }

  ghost predicate Init(w: World) {
    w.jobs == map[] && w.daemonSets == map[] && w.pc == Idle
  }

  ghost predicate IsRun(me: Setup, run: seq<World>, actions: seq<Action>) {
    && |run| == |actions| + 1 && Init(run[0])
    && forall i :: 0 <= i < |actions| ==> Step(me, run[i], actions[i], run[i + 1])
  }

  ghost predicate Reachable(me: Setup, w: World) {
    exists run, actions :: IsRun(me, run, actions) && run[|actions|] == w
  }

  // ---- What every step keeps -----------------------------------------------------------------------------

  /** Among the templates of the run, the hash tells apart those that push different images or sign different files. */
  ghost predicate HashSeparates(me: Setup) {
    forall t1, t2 :: t1 in me.templates && t2 in me.templates && me.hash(t1) == me.hash(t2) ==> SameEffect(t1, t2)
  }

  predicate SameEffect(t1: Template, t2: Template) {
    && t1.push == t2.push && (t1.push ==> t1.signedImage == t2.signedImage)
    && FilesArgument(t1) == FilesArgument(t2)
  }

  /** A hash of the job's arguments is enough: templates that the signing tool reads apart are then hashed apart. */
  lemma HashOfArgumentsSeparates(me: Setup)
    requires forall t1, t2 :: t1 in me.templates && t2 in me.templates && me.hash(t1) == me.hash(t2) ==>
      SignArgs.SettingsOf(t1) == SignArgs.SettingsOf(t2)
    ensures HashSeparates(me)
  {
    forall t1, t2 | t1 in me.templates && t2 in me.templates && me.hash(t1) == me.hash(t2)
      ensures SameEffect(t1, t2)
    {
      SignArgs.SettingsHoldTemplate(t1);
      SignArgs.SettingsHoldTemplate(t2);
      SignArgs.SwitchesHoldTemplate(t1);
      SignArgs.SwitchesHoldTemplate(t2);
    }
  }

  predicate Backed(w: World, r: Request) {
    MustBePushed(r) || r.signing.NoSource? ==> r.image in w.images
  }

  /** This Module's jobs: hashed as made, in one of the four states, and pushed if succeeded. */
  ghost predicate JobsAgree(me: Setup, w: World) {
    forall n :: n in w.jobs && Own(me, w.jobs[n]) ==> JobAgrees(me, w, w.jobs[n])
  }

  predicate JobAgrees(me: Setup, w: World, job: Job) {
    && job.hash == Some(me.hash(job.template)) && job.template in me.templates
    && job.status in {PENDING, ACTIVE, SUCCEEDED, FAILED}
    && (job.status == SUCCEEDED && Pushes(job.template) ==> job.template.signedImage in w.images)
  }

  predicate SameKey(me: Setup, a: Job, b: Job) {
    Own(me, a) && Own(me, b) && a.namespace == b.namespace && a.labels == b.labels
  }

  ghost predicate OnePerKey(me: Setup, jobs: map<string, Job>) {
    forall m, n :: m in jobs && n in jobs && SameKey(me, jobs[m], jobs[n]) ==> m == n
  }

  /** The worker creates a job only while there is none. */
  ghost predicate CreatesFirst(me: Setup, w: World) {
    w.pc.Creating? ==> forall n :: n in w.jobs ==> !IsFor(w.jobs[n], KeyOf(me, w.pc.r))
  }

  /** One job at most for each kernel. */
  ghost predicate NoDuplicates(me: Setup, w: World) {
    OnePerKey(me, w.jobs) && CreatesFirst(me, w)
  }

  function InHand(pc: Pc): set<Request> {
    if pc.Idle? || pc.Collecting? then {} else if pc.Choosing? then pc.todo else pc.todo + {pc.r}
  }

  ghost predicate WorkerAgrees(me: Setup, w: World) {
    && (forall r :: r in InHand(w.pc) ==> Known(me, r))
    && (w.pc.Deploying? ==> Backed(w, w.pc.r))
    && (w.pc.Creating? || w.pc.Deleting? ==> w.pc.r.signing.Asked?)
  }

  ghost predicate DaemonSetsBacked(w: World) {
    forall k :: k in w.daemonSets ==> Deployable(w.daemonSets[k]) && Backed(w, w.daemonSets[k])
  }

  ghost predicate Inv(me: Setup, w: World) {
    JobsAgree(me, w) && NoDuplicates(me, w) && WorkerAgrees(me, w) && DaemonSetsBacked(w)
  }

  lemma StepKeepsJobs(me: Setup, w: World, a: Action, w': World)
    requires JobsAgree(me, w) && WorkerAgrees(me, w) && Step(me, w, a, w')
    ensures JobsAgree(me, w')
  {
    hide AfterListing, FilesArgument, Deployable;
    if a.CreateJob? && WorkerStep(me, w, a, w') { assert w.pc.r in InHand(w.pc); }
  }

  lemma NoneMatches(jobs: map<string, Job>, key: Key)
    requires Matching(jobs, key) == {}
    ensures forall n :: n in jobs ==> !IsFor(jobs[n], key)
  {
    forall n | n in jobs ensures !IsFor(jobs[n], key) {
      assert n !in Matching(jobs, key);
    }
  }

  lemma ListingFindsNone(me: Setup, w: World)
    requires w.pc.Listing? && AfterListing(me, w, w.pc.r, w.pc.todo).Creating?
    ensures AfterListing(me, w, w.pc.r, w.pc.todo).r == w.pc.r
    ensures forall n :: n in w.jobs ==> !IsFor(w.jobs[n], KeyOf(me, w.pc.r))
  {
    NoneMatches(w.jobs, KeyOf(me, w.pc.r));
  }

  lemma StepKeepsOnePerKey(me: Setup, w: World, a: Action, w': World)
    requires NoDuplicates(me, w) && Step(me, w, a, w')
    ensures OnePerKey(me, w'.jobs)
  {
    hide AfterListing, FilesArgument, Deployable;
  }

  lemma StepKeepsCreatesFirst(me: Setup, w: World, a: Action, w': World)
    requires CreatesFirst(me, w) && Step(me, w, a, w')
    ensures CreatesFirst(me, w')
  {
    hide Decide, FilesArgument, Deployable;
    if a.ListJobs? && w'.pc.Creating? { ListingFindsNone(me, w); }
    hide AfterListing, Matching;
  }

  lemma StepKeepsNoDuplicates(me: Setup, w: World, a: Action, w': World)
    requires NoDuplicates(me, w) && Step(me, w, a, w')
    ensures NoDuplicates(me, w')
  {
    StepKeepsOnePerKey(me, w, a, w');
    StepKeepsCreatesFirst(me, w, a, w');
    hide OnePerKey, CreatesFirst, Step;
  }

  /** A completed job of the current template has pushed the request's image. */
  lemma CompletedIsBacked(me: Setup, w: World, r: Request)
    requires HashSeparates(me) && JobsAgree(me, w) && Known(me, r) && r.signing.Asked?
    requires Decide(w.jobs, KeyOf(me, r), me.hash(r.signing.template)) == Report(Completed)
    ensures Backed(w, r)
  {
    var key := KeyOf(me, r);
    CompletedMeansOwnJobSucceeded(w.jobs, key, me.hash(r.signing.template));
    var n :| n in w.jobs && Matching(w.jobs, key) == {n} && w.jobs[n].hash == Some(me.hash(r.signing.template))
           && w.jobs[n].status.succeeded == 1;
    assert n in Matching(w.jobs, key);
    assert JobAgrees(me, w, w.jobs[n]);
    assert me.hash(w.jobs[n].template) == me.hash(r.signing.template);
  }

  lemma StepKeepsWorker(me: Setup, w: World, a: Action, w': World)
    requires HashSeparates(me) && JobsAgree(me, w) && WorkerAgrees(me, w) && Step(me, w, a, w')
    ensures WorkerAgrees(me, w')
  {
    hide Decide, JobsAgree, FilesArgument, Deployable, Matching;
    if a.ListJobs? && WorkerStep(me, w, a, w') {
      if w'.pc.Deploying? { CompletedIsBacked(me, w, w.pc.r); }
    }
  }

  lemma StepKeepsDaemonSets(me: Setup, w: World, a: Action, w': World)
    requires WorkerAgrees(me, w) && DaemonSetsBacked(w) && Step(me, w, a, w')
    ensures DaemonSetsBacked(w')
  {
    hide AfterListing, FilesArgument;
  }

  lemma StepKeepsInv(me: Setup, w: World, a: Action, w': World)
    requires HashSeparates(me) && Inv(me, w) && Step(me, w, a, w')
    ensures Inv(me, w')
  {
    StepKeepsJobs(me, w, a, w');
    StepKeepsNoDuplicates(me, w, a, w');
    StepKeepsWorker(me, w, a, w');
    StepKeepsDaemonSets(me, w, a, w');
  }

  lemma {:induction false} RunKeepsInv(me: Setup, run: seq<World>, actions: seq<Action>, i: nat)
    requires HashSeparates(me) && IsRun(me, run, actions) && i < |run|
    ensures Inv(me, run[i])
  {
    if i > 0 {
      RunKeepsInv(me, run, actions, i - 1);
      assert Step(me, run[i - 1], actions[i - 1], run[i - 1 + 1]);
      StepKeepsInv(me, run[i - 1], actions[i - 1], run[i]);
    }
  }

  // ---- What one visit does -----------------------------------------------------------------------------------

  /** The worker is between the visit of a request and what follows from it. */
  predicate InVisit(pc: Pc) {
    !pc.Idle? && !pc.Choosing? && !pc.Collecting?
  }

  /** One visit of request r, built, from choosing it to the next choice or an error, with nobody interfering. */
  ghost predicate IsVisit(me: Setup, run: seq<World>, actions: seq<Action>, r: Request) {
    && |run| == |actions| + 1 && |actions| >= 1
    && run[0].pc.Choosing? && r in run[0].pc.todo && actions[0] == Visit(r, true)
    && (forall i :: 0 <= i < |actions| ==> WorkerStep(me, run[i], actions[i], run[i + 1]) && !actions[i].Abandon?)
    && forall i :: 1 <= i <= |actions| ==> (InVisit(run[i].pc) <==> i < |actions|)
  }

  lemma AfterListingKeeps(me: Setup, w: World, r: Request, todo: set<Request>)
    ensures var pc := AfterListing(me, w, r, todo);
      && (pc.Creating? || pc.Deleting? || pc.Deploying? ==> pc.r == r && pc.todo == todo)
      && (pc.Creating? || pc.Deleting? ==> r.signing.Asked?)
      && !pc.CheckingImage? && !pc.Listing? && !pc.Collecting?
  {
  }

  /** What the worker does on the decision of a listing. */
  lemma DecisionEnds(me: Setup, w: World, r: Request, todo: set<Request>, generated: string)
    returns (a: Action, w': World)
    requires Deployable(r) && generated !in w.jobs && w.pc == AfterListing(me, w, r, todo) && InVisit(w.pc)
    ensures WorkerStep(me, w, a, w') && !a.Abandon? && w'.pc == Choosing(todo)
  {
    AfterListingKeeps(me, w, r, todo);
    hide AfterListing, FilesArgument;
    w' := w.(pc := Choosing(todo));
    if w.pc.Creating? {
      var t := r.signing.template;
      a, w' := CreateJob(generated), w'.(jobs := w.jobs[generated := NewJob(KeyOf(me, r), t, me.hash(t))]);
    } else if w.pc.Deleting? {
      a := DeleteJob(false);
    } else {
      a, w' := Deploy, w'.(daemonSets := w.daemonSets[r.kernel := r]);
    }
  }

  /** A request that can be deployed can be visited so, in four steps at most. */
  lemma VisitEnds(me: Setup, w: World, r: Request, generated: string) returns (run: seq<World>, actions: seq<Action>)
    requires w.pc.Choosing? && r in w.pc.todo && Deployable(r) && generated !in w.jobs
    ensures IsVisit(me, run, actions, r) && run[0] == w && |actions| <= 4
  {
    var todo := w.pc.todo - {r};
    if r.signing.NotAsked? || r.image in w.images {
      var deployed := w.(daemonSets := w.daemonSets[r.kernel := r], pc := Choosing(todo));
      if r.signing.NotAsked? {
        run, actions := [w, w.(pc := Deploying(r, todo)), deployed], [Visit(r, true), Deploy];
      } else {
        run := [w, w.(pc := CheckingImage(r, todo)), w.(pc := Deploying(r, todo)), deployed];
        actions := [Visit(r, true), QueryImage, Deploy];
      }
    } else {
      AfterListingKeeps(me, w, r, todo);
      hide AfterListing, FilesArgument, Deployable;
      var decided := w.(pc := AfterListing(me, w.(pc := Listing(r, todo)), r, todo));
      run := [w, w.(pc := CheckingImage(r, todo)), w.(pc := Listing(r, todo)), decided];
      actions := [Visit(r, true), QueryImage, ListJobs];
      if InVisit(decided.pc) {
        var a, w' := DecisionEnds(me, decided, r, todo, generated);
        run, actions := run + [w'], actions + [a];
      }
    }
  }

  ghost predicate NoneOwn(jobs: map<string, Job>, key: Key) {
    forall n :: n in jobs && jobs[n].namespace == key.namespace && jobs[n].labels == key.labels ==>
      jobs[n].controller != Some(key.owner)
  }

  /** jobs' is jobs with one job more, made for the template. */
  ghost predicate JobCreated(me: Setup, jobs: map<string, Job>, jobs': map<string, Job>, kernel: string, t: Template) {
    exists n :: n !in jobs && jobs' == jobs[n :=
      Job(me.namespace, Labels(me.name, kernel, "sign"), Some(me.owner), Some(me.hash(t)), t, JobStatus(0, 0, 0))]
  }

  ghost predicate Deployed(w: World, w': World, r: Request) {
    w'.jobs == w.jobs && w'.daemonSets == w.daemonSets[r.kernel := r]
  }

  /** What a visit comes to when its request's only own job is the one named; last is the last action. */
  ghost predicate AnsweredBy(me: Setup, w: World, w': World, r: Request, last: Action, n: string)
    requires n in w.jobs && r.signing.Asked?
  {
    var (job, hash) := (w.jobs[n], me.hash(r.signing.template));
    if job.hash == Some(hash) && job.status.succeeded == 1 then Deployed(w, w', r)
    else
      && w'.daemonSets == w.daemonSets
      && if job.hash.Some? && job.hash.value != hash
         then last.DeleteJob? && w'.jobs == if last.acknowledged then w.jobs - {n} else w.jobs
         else w'.jobs == w.jobs
  }

  lemma VisitNext(me: Setup, run: seq<World>, actions: seq<Action>, r: Request, i: nat)
    requires IsVisit(me, run, actions, r) && 1 <= i < |actions|
    ensures WorkerStep(me, run[i], actions[i], run[i + 1]) && !actions[i].Abandon? && InVisit(run[i].pc)
    ensures InVisit(run[i + 1].pc) <==> i + 1 < |actions|
  {
  }

  lemma DeployingDeploys(me: Setup, run: seq<World>, actions: seq<Action>, r: Request, i: nat)
    requires IsVisit(me, run, actions, r) && 1 <= i < |actions| && run[i].pc.Deploying? && run[i].pc.r == r
    ensures |actions| == i + 1 && Deployed(run[i], run[i + 1], r) && run[i + 1].images == run[i].images
  {
    VisitNext(me, run, actions, r, i);
    hide IsVisit;
  }

  /** The listing, and what comes of its decision. */
  lemma ListingAnswers(me: Setup, run: seq<World>, actions: seq<Action>, r: Request, i: nat)
    requires IsVisit(me, run, actions, r) && 1 <= i < |actions|
    requires run[i].pc.Listing? && run[i].pc.r == r && r.signing.Asked?
    ensures var (w, w') := (run[i], run[|actions|]);
      var key := Key(me.namespace, Labels(me.name, r.kernel, "sign"), me.owner);
      && w'.images == w.images
      && (NoneOwn(w.jobs, key) ==>
          JobCreated(me, w.jobs, w'.jobs, r.kernel, r.signing.template) && w'.daemonSets == w.daemonSets)
      && forall n :: OnlyOwn(w.jobs, key, n) ==> AnsweredBy(me, w, w', r, actions[|actions| - 1], n)
  {
    var (w, hash) := (run[i], me.hash(r.signing.template));
    var key := Key(me.namespace, Labels(me.name, r.kernel, "sign"), me.owner);
    VisitNext(me, run, actions, r, i);
    DecideMeans(w.jobs, key, hash, "");
    forall n ensures OnlyOwn(w.jobs, key, n) ==> OwnDecides(w.jobs[n], n, hash, Decide(w.jobs, key, hash)) {
      DecideMeans(w.jobs, key, hash, n);
    }
    if run[i + 1].pc.Deploying? {
      DeployingDeploys(me, run, actions, r, i + 1);
    } else if InVisit(run[i + 1].pc) {
      VisitNext(me, run, actions, r, i + 1);
    }
    hide IsVisit, Decide;
  }

  /**
   A visit deploys the request when no signing was asked for, when the image is there, and when the request's own job
   has succeeded; without such a job it creates one; it deletes one made for something else, and otherwise waits.
   */
  lemma VisitDoes(me: Setup, run: seq<World>, actions: seq<Action>, r: Request)
    requires IsVisit(me, run, actions, r)
    ensures var (w, w') := (run[0], run[|actions|]);
      var key := Key(me.namespace, Labels(me.name, r.kernel, "sign"), me.owner);
      && w'.images == w.images
      && (r.signing.NotAsked? || r.image in w.images ==> Deployed(w, w', r))
      && (r.signing.NoSource? && r.image !in w.images ==> w' == w.(pc := Idle))
      && (r.signing.Asked? && r.image !in w.images ==>
          && (NoneOwn(w.jobs, key) ==>
              JobCreated(me, w.jobs, w'.jobs, r.kernel, r.signing.template) && w'.daemonSets == w.daemonSets)
          && forall n :: OnlyOwn(w.jobs, key, n) ==> AnsweredBy(me, w, w', r, actions[|actions| - 1], n))
  {
    assert WorkerStep(me, run[0], actions[0], run[1]);
    if r.signing.NotAsked? {
      DeployingDeploys(me, run, actions, r, 1);
    } else {
      VisitNext(me, run, actions, r, 1);
      if r.image in run[0].images {
        DeployingDeploys(me, run, actions, r, 2);
      } else if r.signing.Asked? {
        ListingAnswers(me, run, actions, r, 2);
      } else {
        VisitNext(me, run, actions, r, 2);
      }
    }
  }

  // ---- Whole-run deployment safety -------------------------------------------------------------------------

  /**
   In every reachable state, a driver DaemonSet written for a mapping that asked for signing, and lists a file or has
   nothing that could be signed, names an image that is in the registry, also after its job was collected.
   */
  lemma DaemonSetsNamePushedImages(me: Setup, w: World, kernel: string)
    requires HashSeparates(me) && Reachable(me, w)
    requires kernel in w.daemonSets
    requires var signing := w.daemonSets[kernel].signing;
      signing.NoSource? || (signing.Asked? && FilesArgument(signing.template) != "")
    ensures w.daemonSets[kernel].image in w.images
  {
    var run, actions :| IsRun(me, run, actions) && run[|actions|] == w;
    RunKeepsInv(me, run, actions, |actions|);
  }

  lemma DaemonSetsAreDeployable(me: Setup, w: World, kernel: string)
    requires HashSeparates(me) && Reachable(me, w) && kernel in w.daemonSets
    ensures Deployable(w.daemonSets[kernel])
  {
    var run, actions :| IsRun(me, run, actions) && run[|actions|] == w;
    RunKeepsInv(me, run, actions, |actions|);
  }

  lemma Extend(me: Setup, w: World, a: Action, w': World)
    requires Reachable(me, w) && Step(me, w, a, w')
    ensures Reachable(me, w')
  {
    var run, actions :| IsRun(me, run, actions) && run[|actions|] == w;
    var (run', actions') := (run + [w'], actions + [a]);
    forall i | 0 <= i < |actions'| ensures Step(me, run'[i], actions'[i], run'[i + 1]) {
      if i < |actions| { assert Step(me, run[i], actions[i], run[i + 1]); }
    }
    assert IsRun(me, run', actions') && run'[|actions'|] == w';
  }

  /** From idle, with no usable image in the registry, to the decision of Sync on request r alone. */
  lemma ReachListing(me: Setup, w: World, r: Request)
    requires Reachable(me, w) && w.pc.Idle? && Known(me, r) && r.signing.Asked? && r.image !in w.images
    ensures Reachable(me, w.(pc := AfterListing(me, w, r, {})))
  {
    var w1 := w.(pc := Choosing({r}));
    Extend(me, w, Begin({r}), w1);
    var w2 := w.(pc := CheckingImage(r, {r} - {r}));
    Extend(me, w1, Visit(r, true), w2);
    var w3 := w.(pc := Listing(r, {}));
    assert {r} - {r} == {};
    Extend(me, w2, QueryImage, w3);
    Extend(me, w3, ListJobs, w.(pc := AfterListing(me, w, r, {})));
  }

  ghost function OneJob(me: Setup, r: Request, status: JobStatus): map<string, Job>
    requires r.signing.Asked?
  {
    map["job" := NewJob(KeyOf(me, r), r.signing.template, me.hash(r.signing.template)).(status := status)]
  }

  lemma DecideOneJob(me: Setup, r: Request, status: JobStatus)
    requires r.signing.Asked?
    ensures Decide(OneJob(me, r, status), KeyOf(me, r), me.hash(r.signing.template)) ==
      DecideOn(OneJob(me, r, status)["job"], "job", me.hash(r.signing.template))
  {
    var jobs := OneJob(me, r, status);
    assert "job" in Matching(jobs, KeyOf(me, r));
    assert Matching(jobs, KeyOf(me, r)) == {"job"};
  }

  /** No image in the registry, no DaemonSet, and the one job that was made for r. */
  ghost function WithOneJob(me: Setup, r: Request, status: JobStatus): World
    requires r.signing.Asked?
  {
    World({}, OneJob(me, r, status), map[], Idle)
  }

  lemma ReachCreated(me: Setup, r: Request)
    requires Known(me, r) && r.signing.Asked?
    ensures Reachable(me, WithOneJob(me, r, PENDING))
  {
    var w := World({}, map[], map[], Idle);
    var noActions: seq<Action> := [];
    assert IsRun(me, [w], noActions) && [w][|noActions|] == w;
    assert Matching(w.jobs, KeyOf(me, r)) == {};
    ReachListing(me, w, r);
    var created := WithOneJob(me, r, PENDING);
    Extend(me, w.(pc := Creating(r, {})), CreateJob("job"), created.(pc := Choosing({})));
    Extend(me, created.(pc := Choosing({})), Abandon, created);
  }

  lemma ReachSucceeded(me: Setup, r: Request)
    requires Known(me, r) && r.signing.Asked? && !MustBePushed(r)
    ensures Reachable(me, WithOneJob(me, r, SUCCEEDED))
  {
    ReachCreated(me, r);
    JobStep(me, r, PENDING, ACTIVE);
    JobStep(me, r, ACTIVE, SUCCEEDED);
  }

  lemma JobStep(me: Setup, r: Request, before: JobStatus, after: JobStatus)
    requires Known(me, r) && r.signing.Asked? && !MustBePushed(r) && MovesOn(before, after) &&
      Reachable(me, WithOneJob(me, r, before))
    ensures Reachable(me, WithOneJob(me, r, after))
  {
    var (w, w') := (WithOneJob(me, r, before), WithOneJob(me, r, after));
    assert w'.jobs == w.jobs["job" := w.jobs["job"].(status := after)];
    Extend(me, w, JobProgress("job", after), w');
  }

  /**
   Without a file to sign, the tool exits with status 0, the job succeeds, and the DaemonSet names a missing image.
   */
  lemma EmptyListDeploysMissingImage(me: Setup, r: Request) returns (w: World)
    requires Known(me, r) && r.signing.Asked? && Deployable(r) && !MustBePushed(r)
    ensures Reachable(me, w) && r.kernel in w.daemonSets && w.daemonSets[r.kernel] == r && r.image !in w.images
  {
    var succeeded := WithOneJob(me, r, SUCCEEDED);
    ReachSucceeded(me, r);
    DecideOneJob(me, r, SUCCEEDED);
    ReachListing(me, succeeded, r);
    w := succeeded.(daemonSets := map[r.kernel := r], pc := Choosing({}));
    Extend(me, succeeded.(pc := Deploying(r, {})), Deploy, w);
  }

  /** In every run, whenever a DaemonSet is as r wants it, its image is in the registry. */
  ghost predicate OnlyDeployedPushed(me: Setup, r: Request) {
    forall w :: Reachable(me, w) && r.kernel in w.daemonSets && w.daemonSets[r.kernel] == r ==> r.image in w.images
  }

  /** The exact condition: signing guards a deployable request in every run if and only if the request lists a file. */
  lemma SigningGuardsDeployment(me: Setup, r: Request)
    requires HashSeparates(me) && Known(me, r) && r.signing.Asked?
    ensures OnlyDeployedPushed(me, r) <==> FilesArgument(r.signing.template) != "" || !Deployable(r)
  {
    if Deployable(r) && !MustBePushed(r) {
      var w := EmptyListDeploysMissingImage(me, r);
    } else {
      forall w | Reachable(me, w) && r.kernel in w.daemonSets && w.daemonSets[r.kernel] == r
        ensures r.image in w.images
      {
        DaemonSetsAreDeployable(me, w, r.kernel);
        DaemonSetsNamePushedImages(me, w, r.kernel);
      }
    }
  }
}
