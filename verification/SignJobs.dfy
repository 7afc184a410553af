/**
 In-cluster signing jobs: building the job (internal/sign/job/signer.go), finding, creating, replacing and collecting
 jobs (internal/sign/job/manager.go, internal/utils/jobhelper.go).
 */
module SignJobs {
  import opened Base
  import opened Text
  import opened KernelMapper

  const JOB_TYPE_SIGN := "sign"

  // ---- The job a mapping asks for ----------------------------------------------------------------------

  /** What the signing tool is run with; secrets stands for the key material, which is part of what is hashed. */
  datatype Template = Template(
    signedImage: string, push: bool, pushTLS: TLS, unsignedImage: string, pullTLS: TLS,
    filesToSign: seq<string>, secrets: string)

  const NO_TLS_OPTIONS := TLS(false, false)

  /** MakeJobTemplate: the intermediate image when there is one, else the configured unsigned image, else an error. */
  function MakeJobTemplate(mld: ModuleLoaderData, imageToSign: string, pushImage: bool,
                           secrets: string): Option<Template>
    requires mld.sign.Some?
  {
    var sign := mld.sign.value;
    var source := if imageToSign != "" then imageToSign else sign.unsignedImage;
    if source == "" then None
    else Some(Template(if pushImage then mld.containerImage else "", pushImage,
                       if pushImage then mld.registryTLS else NO_TLS_OPTIONS,
                       source, sign.unsignedTLS, sign.filesToSign, secrets))
  }

  /** The value of -filestosign; the argument is left out, and so empty, when there is no file. */
  function FilesArgument(t: Template): string {
    Join(t.filesToSign, ':')
  }

  // ---- Jobs --------------------------------------------------------------------------------------------

  datatype JobStatus = JobStatus(succeeded: int, active: int, failed: int)

  datatype Labels = Labels(moduleName: string, kernel: string, jobType: string)

  /** hash is None when the job has no annotations at all. */
  datatype Job = Job(
    namespace: string, labels: Labels, controller: Option<string>, hash: Option<string>,
    template: Template, status: JobStatus)

  /** What a lookup is for: the labels, the namespace and the owner that must control the job. */
  datatype Key = Key(namespace: string, labels: Labels, owner: string)

  datatype Status = Completed | Created | InProgress | JobFailed

  datatype JobError = ListFailed | TooManyJobs | NotAnnotated | UnknownStatus | CreateFailed | DeleteFailed

  /** GetJobStatus; a job none of whose counters is 1, such as one just created, is an error. */
  function GetJobStatus(s: JobStatus): Option<Status> {
    if s.succeeded == 1 then Some(Completed)
    else if s.active == 1 then Some(InProgress)
    else if s.failed == 1 then Some(JobFailed)
    else None
  }

  predicate IsFor(job: Job, key: Key) {
    job.namespace == key.namespace && job.labels == key.labels && job.controller == Some(key.owner)
  }

  function Matching(jobs: map<string, Job>, key: Key): set<string> {
    set n | n in jobs && IsFor(jobs[n], key)
  }

  ghost predicate AtMostOne(jobs: map<string, Job>, key: Key) {
    forall m, n :: m in jobs && n in jobs && IsFor(jobs[m], key) && IsFor(jobs[n], key) ==> m == n
  }

  datatype Decision = Create | Replace(name: string) | Report(status: Status) | Fail(error: JobError)

  /** What Sync decides on one existing job. */
  function DecideOn(job: Job, name: string, hash: string): Decision {
    if job.hash.None? then Fail(NotAnnotated)
    else if job.hash != Some(hash) then Replace(name)
    else match GetJobStatus(job.status) case None => Fail(UnknownStatus) case Some(s) => Report(s)
  }

  /** What Sync decides when it lists the jobs. */
  ghost function Decide(jobs: map<string, Job>, key: Key, hash: string): Decision {
    var found := Matching(jobs, key);
    if found == {} then Create
    else
      var n :| n in found;
      if found == {n} then DecideOn(jobs[n], n, hash) else Fail(TooManyJobs)
  }

  function NewJob(key: Key, template: Template, hash: string): Job {
    Job(key.namespace, key.labels, Some(key.owner), Some(hash), template, JobStatus(0, 0, 0))
  }

  /** The API calls that fail during one Sync. */
  datatype Faults = Faults(list: bool, create: bool, delete: bool)

  /** The jobs in the cluster, and the operations of the job helper and the sign manager on them. */
  class JobManager {
    var jobs: map<string, Job>

    constructor ()
      ensures jobs == map[]
    {
      jobs := map[];
    }

    /** getJobs and filterJobsByOwner: the list comes in any order and is filtered by its controller. */
    method OwnedJobs(key: Key) returns (names: seq<string>)
      ensures Distinct(names) && (set n | n in names) == Matching(jobs, key)
    {
      names := [];
      var todo := set n | n in jobs && jobs[n].namespace == key.namespace && jobs[n].labels == key.labels;
      while todo != {}
        invariant todo <= jobs.Keys
        invariant forall n :: n in todo ==> jobs[n].namespace == key.namespace && jobs[n].labels == key.labels
        invariant Distinct(names)
        invariant forall n :: n in names ==> n !in todo && n in Matching(jobs, key)
        invariant forall n :: n in Matching(jobs, key) ==> n in todo || n in names
        decreases |todo|
      {
        var n :| n in todo;
        todo := todo - {n};
        if jobs[n].controller == Some(key.owner) {
          names := names + [n];
        }
      }
    }

    method GetModuleJobByKernel(key: Key, listFails: bool) returns (r: Result<Option<string>, JobError>)
      ensures listFails ==> r == Failure(ListFailed)
      ensures !listFails ==>
        match r
        case Success(None) => Matching(jobs, key) == {}
        case Success(Some(n)) => Matching(jobs, key) == {n}
        case Failure(e) =>
          e == TooManyJobs && !AtMostOne(jobs, key) && forall h :: Decide(jobs, key, h) == Fail(TooManyJobs)
    {
      if listFails {
        return Failure(ListFailed);
      }
      var names := OwnedJobs(key);
      if |names| == 0 {
        return Success(None);
      } else if |names| > 1 {
        assert names[0] in Matching(jobs, key) && names[1] in Matching(jobs, key);
        DecideMany(jobs, key, names[0], names[1]);
        return Failure(TooManyJobs);
      }
      return Success(Some(names[0]));
    }

    /** Sync, given the name the API server would generate for a new job and the calls that fail. */
    method Sync(key: Key, template: Template, hash: string, generated: string, faults: Faults)
      returns (r: Result<Status, JobError>)
      requires generated !in jobs
      modifies this
      ensures faults.list ==> r == Failure(ListFailed) && jobs == old(jobs)
      ensures !faults.list ==>
        match Decide(old(jobs), key, hash)
        case Create =>
          if faults.create then r == Failure(CreateFailed) && jobs == old(jobs)
          else
            && r == Success(Created)
            && jobs == old(jobs)[generated :=
                 Job(key.namespace, key.labels, Some(key.owner), Some(hash), template, JobStatus(0, 0, 0))]
        case Replace(n) => r == Success(InProgress) && jobs == if faults.delete then old(jobs) else old(jobs) - {n}
        case Report(s) => r == Success(s) && jobs == old(jobs)
        case Fail(e) => r == Failure(e) && jobs == old(jobs)
      ensures AtMostOne(old(jobs), key) ==> AtMostOne(jobs, key)
      ensures forall n :: n in old(jobs) && !IsFor(old(jobs)[n], key) ==> n in jobs && jobs[n] == old(jobs)[n]
      ensures forall n :: n in jobs && !IsFor(jobs[n], key) ==> n in old(jobs)
    {
      var found := GetModuleJobByKernel(key, faults.list);
      assert forall n :: n in jobs && IsFor(jobs[n], key) ==> n in Matching(jobs, key);
      if found.Failure? {
        return Failure(found.error);
      }
      if found.value.None? {
        if faults.create {
          return Failure(CreateFailed);
        }
        jobs := jobs[generated := NewJob(key, template, hash)];
        return Success(Created);
      }
      var name := found.value.value;
      assert name in Matching(jobs, key);
      var job := jobs[name];
      if job.hash.None? {
        return Failure(NotAnnotated);
      }
      if job.hash != Some(hash) {
        if !faults.delete {
          jobs := jobs - {name};
        }
        return Success(InProgress);
      }
      var status := GetJobStatus(job.status);
      return if status.None? then Failure(UnknownStatus) else Success(status.value);
    }

    /** GarbageCollect: the owner's finished sign jobs of the module go, whatever their kernel, and no other job. */
    method GarbageCollect(modName: string, namespace: string, owner: string, listFails: bool, undeletable: set<string>)
      returns (ok: bool)
      modifies this
      ensures forall n :: n in jobs ==> n in old(jobs) && jobs[n] == old(jobs)[n]
      ensures forall n :: n in old(jobs) && n !in jobs ==> Collectable(old(jobs)[n], modName, namespace, owner)
      ensures ok ==> forall n :: n in old(jobs) && Collectable(old(jobs)[n], modName, namespace, owner) ==> n !in jobs
      ensures forall n :: n in old(jobs) && n in undeletable ==> n in jobs
      ensures listFails ==> !ok && jobs == old(jobs)
      ensures !ok && !listFails ==>
        exists n :: n in undeletable && n in jobs && Collectable(jobs[n], modName, namespace, owner)
    {
      if listFails {
        return false;
      }
      var todo := set n | n in jobs && Listed(jobs[n], modName, namespace, owner);
      while todo != {}
        invariant forall n :: n in todo ==> n in jobs && Listed(jobs[n], modName, namespace, owner)
        invariant forall n :: n in jobs ==> n in old(jobs) && jobs[n] == old(jobs)[n]
        invariant forall n :: n in old(jobs) && n !in jobs ==> Collectable(old(jobs)[n], modName, namespace, owner)
        invariant forall n :: n in jobs && Collectable(jobs[n], modName, namespace, owner) ==> n in todo
        invariant forall n :: n in old(jobs) && n in undeletable ==> n in jobs
        decreases |todo|
      {
        var n :| n in todo;
        if jobs[n].status.succeeded == 1 {
          if n in undeletable {
            return false;
          }
          jobs := jobs - {n};
        }
        todo := todo - {n};
      }
      return true;
    }
  }

  /** GetModuleJobs: the owner's sign jobs of the module, for any kernel. */
  predicate Listed(job: Job, modName: string, namespace: string, owner: string) {
    && job.namespace == namespace && job.labels.moduleName == modName && job.labels.jobType == JOB_TYPE_SIGN
    && job.controller == Some(owner)
  }

  predicate Collectable(job: Job, modName: string, namespace: string, owner: string) {
    Listed(job, modName, namespace, owner) && job.status.succeeded == 1
  }

  lemma DecideMany(jobs: map<string, Job>, key: Key, m: string, n: string)
    requires m != n && m in Matching(jobs, key) && n in Matching(jobs, key)
    ensures !AtMostOne(jobs, key) && forall h :: Decide(jobs, key, h) == Fail(TooManyJobs)
  {
  }

  // ---- What a decision means ------------------------------------------------------------------------------

  /** Exactly the named job has the key's labels in its namespace and is controlled by its owner. */
  ghost predicate OnlyOwn(jobs: map<string, Job>, key: Key, n: string) {
    && n in jobs
    && forall m :: m in jobs ==>
         (jobs[m].namespace == key.namespace && jobs[m].labels == key.labels && jobs[m].controller == Some(key.owner)
          <==> m == n)
  }

  lemma OnlyOwnMatches(jobs: map<string, Job>, key: Key, n: string)
    ensures OnlyOwn(jobs, key, n) <==> Matching(jobs, key) == {n}
  {
    if Matching(jobs, key) == {n} {
      forall x | x in jobs && IsFor(jobs[x], key) ensures x == n { assert x in Matching(jobs, key); }
      assert n in Matching(jobs, key);
    }
  }

  /** The decision about a job that is the only one, by its hash and its counters. */
  ghost predicate OwnDecides(job: Job, n: string, hash: string, decision: Decision) {
    && (job.hash == None ==> decision == Fail(NotAnnotated))
    && (job.hash.Some? && job.hash.value != hash ==> decision == Replace(n))
    && (job.hash == Some(hash) && job.status.succeeded == 1 ==> decision == Report(Completed))
    && (job.hash == Some(hash) && job.status.succeeded != 1 ==>
        && (job.status.active == 1 ==> decision == Report(InProgress))
        && (job.status.active != 1 && job.status.failed == 1 ==> decision == Report(JobFailed))
        && (job.status.active != 1 && job.status.failed != 1 ==> decision == Fail(UnknownStatus)))
  }

  /**
   Each decision by the fields of the jobs: no own job, one that is stale, one that is current and ran, and the errors.
   */
  lemma DecideMeans(jobs: map<string, Job>, key: Key, hash: string, n: string)
    ensures Decide(jobs, key, hash) == Create <==>
      forall m :: m in jobs && jobs[m].namespace == key.namespace && jobs[m].labels == key.labels ==>
        jobs[m].controller != Some(key.owner)
    ensures OnlyOwn(jobs, key, n) ==> OwnDecides(jobs[n], n, hash, Decide(jobs, key, hash))
    ensures Decide(jobs, key, hash) == Fail(TooManyJobs) <==>
      Decide(jobs, key, hash) != Create && forall m :: !OnlyOwn(jobs, key, m)
  {
    forall m ensures OnlyOwn(jobs, key, m) <==> Matching(jobs, key) == {m} {
      OnlyOwnMatches(jobs, key, m);
    }
    if m :| m in jobs && IsFor(jobs[m], key) { assert m in Matching(jobs, key); }
  }

  /** What a decision and the collection of finished jobs look at. */
  lemma CollectableMeans(job: Job, modName: string, namespace: string, owner: string)
    ensures Collectable(job, modName, namespace, owner) <==>
      && job.namespace == namespace && job.controller == Some(owner) && job.status.succeeded == 1
      && exists kernel :: job.labels == Labels(modName, kernel, "sign")
  {
    assert job.labels == Labels(job.labels.moduleName, job.labels.kernel, job.labels.jobType);
  }

  /**
   Sync says completed exactly when the one job the owner controls for this module, kernel and type was made from the
   current template and succeeded.
   */
  lemma CompletedMeansOwnJobSucceeded(jobs: map<string, Job>, key: Key, hash: string)
    ensures Decide(jobs, key, hash) == Report(Completed) <==>
      exists n :: n in jobs && Matching(jobs, key) == {n} && jobs[n].controller == Some(key.owner)
             && jobs[n].hash == Some(hash) && jobs[n].status.succeeded == 1
  {
    if Matching(jobs, key) != {} {
      var m :| m in Matching(jobs, key);
    }
  }

  predicate NoCounterIsOne(s: JobStatus) {
    s.succeeded != 1 && s.active != 1 && s.failed != 1
  }

  /**
   Sync errs on a status exactly when the job is current and none of its counters is one, as before its pod starts.
   */
  lemma UnknownStatusIffNoCounter(jobs: map<string, Job>, key: Key, hash: string)
    ensures Decide(jobs, key, hash) == Fail(UnknownStatus) <==>
      exists n ::
        n in jobs && Matching(jobs, key) == {n} && jobs[n].hash == Some(hash) && NoCounterIsOne(jobs[n].status)
    ensures NoCounterIsOne(JobStatus(0, 0, 0))
  {
    if Matching(jobs, key) != {} {
      var m :| m in Matching(jobs, key);
    }
  }

  /** Jobs of another owner, kernel, type or namespace have no influence: a preflight job never counts for a Module. */
  lemma OnlyOwnJobsCount(jobs: map<string, Job>, others: map<string, Job>, key: Key, hash: string)
    requires forall n :: n in others ==> !IsFor(others[n], key)
    requires jobs.Keys !! others.Keys
    ensures Decide(jobs + others, key, hash) == Decide(jobs, key, hash)
  {
    assert Matching(jobs + others, key) == Matching(jobs, key);
    var found := Matching(jobs, key);
    if n :| n in found && found == {n} {
      assert (jobs + others)[n] == jobs[n];
    }
  }

  /** The only decision that counts matching jobs as too many is the one made when there is more than one. */
  lemma DecideSingle(jobs: map<string, Job>, key: Key, hash: string, n: string)
    requires Matching(jobs, key) == {n}
    ensures Decide(jobs, key, hash) == DecideOn(jobs[n], n, hash)
  {
    assert n in Matching(jobs, key);
  }
}
