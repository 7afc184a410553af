/**
 Signing converges: while the Module keeps asking for the same thing, each kernel's signing needs at most six actions
 (deleting a stale job, creating a job, a job moving on) and then stays done, across collection of finished jobs.
 */
module Convergence {
  import opened Base
  import opened KernelMapper
  import opened SignJobs
  import opened Deployment

  /** The job of a request's key, if there is one. */
  ghost function OwnJob(jobs: map<string, Job>, key: Key): Option<Job> {
    if Matching(jobs, key) == {} then None
    else var n :| n in Matching(jobs, key); Some(jobs[n])
  }

  function MovesLeft(s: JobStatus): nat {
    if s == PENDING then 2 else if s == ACTIVE then 1 else 0
  }

  function RankOf(absent: bool, job: Option<Job>, hash: string): nat {
    match job
    case None => if absent then 3 else 0
    case Some(j) => MovesLeft(j.status) + if absent && j.hash != Some(hash) then 4 else 0
  }

  /** The worker has found the image missing and is about to look at, create or delete the job. */
  predicate MidSigning(pc: Pc, x: Request) {
    (pc.Listing? || pc.Creating? || pc.Deleting?) && pc.r == x
  }

  predicate Absent(w: World, x: Request) {
    x.image !in w.images || MidSigning(w.pc, x)
  }

  ghost function Rank(me: Setup, w: World, x: Request): nat
    requires x.signing.Asked?
  {
    RankOf(Absent(w, x), OwnJob(w.jobs, KeyOf(me, x)), me.hash(x.signing.template))
  }

  /** The kernel's requests do not change: whatever the worker has in hand for x's kernel is x. */
  predicate Fixed(w: World, x: Request) {
    forall r :: r in InHand(w.pc) && r.kernel == x.kernel ==> r == x
  }

  /** Nobody deletes the job by hand. */
  predicate HandsOff(me: Setup, w: World, a: Action, x: Request) {
    a.UserDeletesJob? ==> a.name !in Matching(w.jobs, KeyOf(me, x))
  }

  /** The action creates x's job, deletes it because it is stale, or is a move of it. */
  predicate Acts(me: Setup, w: World, a: Action, x: Request) {
    match a
    case CreateJob(_) => w.pc.Creating? && w.pc.r == x
    case DeleteJob(acknowledged) =>
      acknowledged && w.pc.Deleting? && w.pc.r == x && w.pc.job in Matching(w.jobs, KeyOf(me, x))
    case JobProgress(name, _) => name in Matching(w.jobs, KeyOf(me, x))
    case _ => false
  }

  /** A job picked for deletion is stale. */
  ghost predicate DeletesStale(me: Setup, w: World) {
    w.pc.Deleting? && w.pc.r.signing.Asked? && w.pc.job in Matching(w.jobs, KeyOf(me, w.pc.r)) ==>
      w.jobs[w.pc.job].hash != Some(me.hash(w.pc.r.signing.template))
  }

  ghost predicate ConvInv(me: Setup, w: World) {
    Inv(me, w) && DeletesStale(me, w)
  }

  lemma ReplaceMeansStale(jobs: map<string, Job>, key: Key, hash: string, n: string)
    requires Decide(jobs, key, hash) == Replace(n)
    ensures n in Matching(jobs, key) && jobs[n].hash != Some(hash)
  {
  }

  lemma StepKeepsConvInv(me: Setup, w: World, a: Action, w': World)
    requires HashSeparates(me) && ConvInv(me, w) && Step(me, w, a, w')
    ensures ConvInv(me, w')
  {
    StepKeepsInv(me, w, a, w');
    hide Inv, Decide;
    if a.ListJobs? && w'.pc.Deleting? {
      ReplaceMeansStale(w.jobs, KeyOf(me, w.pc.r), me.hash(w.pc.r.signing.template), w'.pc.job);
    }
  }

  // ---- The rank along one step -----------------------------------------------------------------------------

  lemma OwnJobIs(me: Setup, w: World, x: Request, n: string)
    requires NoDuplicates(me, w) && n in Matching(w.jobs, KeyOf(me, x))
    ensures OwnJob(w.jobs, KeyOf(me, x)) == Some(w.jobs[n])
  {
    var m :| m in Matching(w.jobs, KeyOf(me, x)) && OwnJob(w.jobs, KeyOf(me, x)) == Some(w.jobs[m]);
    assert SameKey(me, w.jobs[m], w.jobs[n]);
  }

  /** Nothing happened to x's job. */
  ghost predicate Untouched(me: Setup, w: World, w': World, x: Request) {
    && Matching(w'.jobs, KeyOf(me, x)) == Matching(w.jobs, KeyOf(me, x))
    && forall n :: n in Matching(w.jobs, KeyOf(me, x)) ==> w'.jobs[n] == w.jobs[n]
  }

  lemma UntouchedRank(me: Setup, w: World, w': World, x: Request)
    requires x.signing.Asked? && NoDuplicates(me, w) && NoDuplicates(me, w') && Untouched(me, w, w', x)
    requires Absent(w', x) ==> Absent(w, x)
    ensures Rank(me, w', x) <= Rank(me, w, x)
  {
    if n :| n in Matching(w.jobs, KeyOf(me, x)) {
      OwnJobIs(me, w, x, n);
      OwnJobIs(me, w', x, n);
    }
  }

  lemma AbsentOnlyGoes(me: Setup, w: World, a: Action, w': World, x: Request)
    requires Step(me, w, a, w')
    ensures Absent(w', x) ==> Absent(w, x)
  {
  }

  lemma CreateRank(me: Setup, w: World, a: Action, w': World, x: Request)
    requires ConvInv(me, w) && NoDuplicates(me, w') && x.signing.Asked? && a.CreateJob? &&
      WorkerStep(me, w, a, w') && w.pc.r == x
    ensures Rank(me, w', x) < Rank(me, w, x)
  {
    assert Matching(w.jobs, KeyOf(me, x)) == {};
    assert a.name in Matching(w'.jobs, KeyOf(me, x));
    OwnJobIs(me, w', x, a.name);
  }

  lemma DeleteRank(me: Setup, w: World, a: Action, w': World, x: Request)
    requires ConvInv(me, w) && x.signing.Asked? && a.DeleteJob? && WorkerStep(me, w, a, w') && Acts(me, w, a, x)
    ensures Rank(me, w', x) < Rank(me, w, x)
  {
    OwnJobIs(me, w, x, w.pc.job);
    OnlyJobGone(me, w, w', x, w.pc.job);
  }

  lemma OnlyJobGone(me: Setup, w: World, w': World, x: Request, n: string)
    requires NoDuplicates(me, w) && n in Matching(w.jobs, KeyOf(me, x)) && w'.jobs == w.jobs - {n}
    ensures Matching(w'.jobs, KeyOf(me, x)) == {}
  {
    forall m | m in w'.jobs ensures !IsFor(w'.jobs[m], KeyOf(me, x)) {
      if IsFor(w.jobs[m], KeyOf(me, x)) { assert SameKey(me, w.jobs[m], w.jobs[n]); }
    }
  }

  lemma ProgressRank(me: Setup, w: World, a: Action, w': World, x: Request)
    requires ConvInv(me, w) && NoDuplicates(me, w') && x.signing.Asked? && EnvStep(me, w, a, w')
    requires a.JobProgress? && Acts(me, w, a, x)
    ensures Rank(me, w', x) < Rank(me, w, x)
  {
    assert a.name in Matching(w'.jobs, KeyOf(me, x));
    OwnJobIs(me, w, x, a.name);
    OwnJobIs(me, w', x, a.name);
  }

  /** Collecting x's job does not undo the signing: a job that succeeded for x has pushed x's image. */
  lemma CollectRank(me: Setup, w: World, a: Action, w': World, x: Request)
    requires HashSeparates(me) && ConvInv(me, w) && Known(me, x) && MustBePushed(x)
    requires a.CollectJob? && WorkerStep(me, w, a, w') && a.name in Matching(w.jobs, KeyOf(me, x))
    ensures Rank(me, w', x) <= Rank(me, w, x)
  {
    var job := w.jobs[a.name];
    OwnJobIs(me, w, x, a.name);
    OnlyJobGone(me, w, w', x, a.name);
    assert JobAgrees(me, w, job);
    if job.hash == Some(me.hash(x.signing.template)) {
      assert me.hash(job.template) == me.hash(x.signing.template);
    }
  }

  lemma WorkerLeavesJob(me: Setup, w: World, a: Action, w': World, x: Request)
    requires CreatesFirst(me, w) && WorkerStep(me, w, a, w') && Fixed(w, x) && !Acts(me, w, a, x)
    requires a.CollectJob? ==> a.name !in Matching(w.jobs, KeyOf(me, x))
    ensures Untouched(me, w, w', x)
  {
    hide AfterListing, FilesArgument, Deployable, Known;
    if a.CreateJob? { assert w.pc.r in InHand(w.pc); }
  }

  lemma OthersLeaveJob(me: Setup, w: World, a: Action, w': World, x: Request)
    requires EnvStep(me, w, a, w') && HandsOff(me, w, a, x) && !Acts(me, w, a, x)
    ensures Untouched(me, w, w', x)
  {
    hide FilesArgument, Deployable;
  }

  lemma OtherStepsLeaveJob(me: Setup, w: World, a: Action, w': World, x: Request)
    requires CreatesFirst(me, w) && Step(me, w, a, w') && Fixed(w, x) && HandsOff(me, w, a, x) && !Acts(me, w, a, x)
    requires a.CollectJob? ==> a.name !in Matching(w.jobs, KeyOf(me, x))
    ensures Untouched(me, w, w', x)
  {
    if WorkerStep(me, w, a, w') {
      WorkerLeavesJob(me, w, a, w', x);
    } else {
      OthersLeaveJob(me, w, a, w', x);
    }
  }

  /** The rank never rises, and every action on x's job lowers it. */
  lemma RankAlongStep(me: Setup, w: World, a: Action, w': World, x: Request)
    requires HashSeparates(me) && ConvInv(me, w) && Step(me, w, a, w')
    requires Known(me, x) && MustBePushed(x) && Fixed(w, x) && HandsOff(me, w, a, x)
    ensures Rank(me, w', x) <= Rank(me, w, x)
    ensures Acts(me, w, a, x) ==> Rank(me, w', x) < Rank(me, w, x)
  {
    StepKeepsNoDuplicates(me, w, a, w');
    if Acts(me, w, a, x) {
      if a.CreateJob? { CreateRank(me, w, a, w', x); }
      else if a.DeleteJob? { DeleteRank(me, w, a, w', x); }
      else { ProgressRank(me, w, a, w', x); }
    } else if a.CollectJob? && a.name in Matching(w.jobs, KeyOf(me, x)) {
      CollectRank(me, w, a, w', x);
    } else {
      OtherStepsLeaveJob(me, w, a, w', x);
      AbsentOnlyGoes(me, w, a, w', x);
      UntouchedRank(me, w, w', x);
    }
  }

  // ---- Whole runs ------------------------------------------------------------------------------------------

  ghost predicate IsSteadyRun(me: Setup, run: seq<World>, actions: seq<Action>, x: Request) {
    && |run| == |actions| + 1
    && forall i :: 0 <= i < |actions| ==> SteadyStep(me, run[i], actions[i], run[i + 1], x)
  }

  ghost predicate SteadyStep(me: Setup, w: World, a: Action, w': World, x: Request) {
    Step(me, w, a, w') && Fixed(w, x) && HandsOff(me, w, a, x)
  }

  /** How many of the first i actions act on x's job. */
  ghost function ActionsSpent(me: Setup, run: seq<World>, actions: seq<Action>, x: Request, i: nat): nat
    requires i <= |actions| < |run|
  {
    if i == 0 then 0
    else ActionsSpent(me, run, actions, x, i - 1) + if Acts(me, run[i - 1], actions[i - 1], x) then 1 else 0
  }

  lemma {:induction false} RunKeepsConvInv(me: Setup, run: seq<World>, actions: seq<Action>, i: nat)
    requires HashSeparates(me) && IsRun(me, run, actions) && i < |run|
    ensures ConvInv(me, run[i])
  {
    if i > 0 {
      RunKeepsConvInv(me, run, actions, i - 1);
      assert Step(me, run[i - 1], actions[i - 1], run[i - 1 + 1]);
      StepKeepsConvInv(me, run[i - 1], actions[i - 1], run[i]);
    }
  }

  lemma ReachableConvInv(me: Setup, w: World)
    requires HashSeparates(me) && Reachable(me, w)
    ensures ConvInv(me, w)
  {
    var run, actions :| IsRun(me, run, actions) && run[|actions|] == w;
    RunKeepsConvInv(me, run, actions, |actions|);
  }

  lemma ConvInvIsInv(me: Setup, w: World)
    requires ConvInv(me, w)
    ensures Inv(me, w)
  {
  }

  lemma RankAtMostSix(me: Setup, w: World, x: Request)
    requires Inv(me, w) && x.signing.Asked?
    ensures Rank(me, w, x) <= 6
  {
  }

  lemma {:induction false} ConvergesFrom(me: Setup, run: seq<World>, actions: seq<Action>, x: Request, i: nat)
    requires HashSeparates(me) && Known(me, x) && MustBePushed(x)
    requires IsSteadyRun(me, run, actions, x) && ConvInv(me, run[0]) && i <= |actions|
    ensures ConvInv(me, run[i])
    ensures ActionsSpent(me, run, actions, x, i) + Rank(me, run[i], x) <= Rank(me, run[0], x) <= 6
  {
    hide ConvInv, Inv, Rank, Step, HashSeparates, Known, Fixed, HandsOff;
    if i == 0 {
      ConvInvIsInv(me, run[0]);
      RankAtMostSix(me, run[0], x);
    } else {
      ConvergesFrom(me, run, actions, x, i - 1);
      assert SteadyStep(me, run[i - 1], actions[i - 1], run[i - 1 + 1], x);
      StepKeepsConvInv(me, run[i - 1], actions[i - 1], run[i]);
      RankAlongStep(me, run[i - 1], actions[i - 1], run[i], x);
    }
  }

  /**
   From any reachable world, so also when requests changed before, and along any schedule in which the request is now
   fixed, at most six actions are spent on the kernel's job.
   */
  lemma SigningConverges(me: Setup, run: seq<World>, actions: seq<Action>, x: Request, i: nat)
    requires HashSeparates(me) && Known(me, x) && MustBePushed(x)
    requires IsSteadyRun(me, run, actions, x) && Reachable(me, run[0]) && i <= |actions|
    ensures ActionsSpent(me, run, actions, x, i) + Rank(me, run[i], x) <= Rank(me, run[0], x) <= 6
  {
    ReachableConvInv(me, run[0]);
    ConvergesFrom(me, run, actions, x, i);
  }

  /** x's job has a move left, so it can go on without the worker. */
  ghost predicate JobCanMove(me: Setup, w: World, x: Request) {
    exists n :: n in Matching(w.jobs, KeyOf(me, x)) &&
      (MovesOn(w.jobs[n].status, ACTIVE) || MovesOn(w.jobs[n].status, SUCCEEDED))
  }

  /**
   Rank 0 is the end: the image is there, or the job of the current template has finished, and Sync neither creates nor
   deletes. Above 0 something can still lower the rank: the job moves on, or Sync replaces or creates it.
   */
  lemma RankSaysWhatIsLeft(me: Setup, w: World, x: Request)
    requires Inv(me, w) && x.signing.Asked?
    ensures var decision := Decide(w.jobs, KeyOf(me, x), me.hash(x.signing.template));
      if Rank(me, w, x) == 0
      then x.image in w.images || decision == Report(Completed) || decision == Report(JobFailed)
      else JobCanMove(me, w, x) || (Absent(w, x) && (decision == Create || decision.Replace?))
  {
    var key := KeyOf(me, x);
    if n :| n in Matching(w.jobs, key) {
      OwnJobIs(me, w, x, n);
      assert JobAgrees(me, w, w.jobs[n]);
      assert Matching(w.jobs, key) == {n} by {
        forall m | m in Matching(w.jobs, key) ensures m == n { assert SameKey(me, w.jobs[m], w.jobs[n]); }
      }
      DecideSingle(w.jobs, key, me.hash(x.signing.template), n);
    }
  }

  /** What convergence is for: at rank 0, unless the job failed, the next undisturbed visit deploys the request. */
  lemma VisitAtRankZeroDeploys(me: Setup, run: seq<World>, actions: seq<Action>, x: Request)
    requires IsVisit(me, run, actions, x) && Inv(me, run[0]) && x.signing.Asked? && Rank(me, run[0], x) == 0
    requires Decide(run[0].jobs, KeyOf(me, x), me.hash(x.signing.template)) != Report(JobFailed)
    ensures run[|actions|].daemonSets == run[0].daemonSets[x.kernel := x]
  {
    var (w, key, hash) := (run[0], KeyOf(me, x), me.hash(x.signing.template));
    RankSaysWhatIsLeft(me, w, x);
    VisitDoes(me, run, actions, x);
    if x.image !in w.images {
      CompletedMeansOwnJobSucceeded(w.jobs, key, hash);
      var n :| n in w.jobs && Matching(w.jobs, key) == {n} && w.jobs[n].hash == Some(hash)
             && w.jobs[n].status.succeeded == 1;
      OnlyOwnMatches(w.jobs, key, n);
    }
    hide IsVisit, Inv, Rank, Decide;
  }

  /**
   With an empty list of files the rank does rise: from a reachable state in which the job has succeeded and nothing is
   left to do, collecting the job makes signing start over, as the image is still not there.
   */
  lemma EmptyListStartsOver(me: Setup, x: Request) returns (w: World, w': World)
    requires Known(me, x) && x.signing.Asked? && !MustBePushed(x)
    ensures Reachable(me, w) && Step(me, w, CollectJob("job"), w')
    ensures w.pc.Collecting? && Rank(me, w, x) == 0 && Rank(me, w', x) == 3
  {
    var idle := WithOneJob(me, x, SUCCEEDED);
    ReachSucceeded(me, x);
    Extend(me, idle, Begin({}), idle.(pc := Choosing({})));
    w := idle.(pc := Collecting);
    Extend(me, idle.(pc := Choosing({})), Finish, w);
    w' := w.(jobs := w.jobs - {"job"});
    assert Matching(w.jobs, KeyOf(me, x)) == {"job"} by { assert "job" in Matching(w.jobs, KeyOf(me, x)); }
    assert Matching(w'.jobs, KeyOf(me, x)) == {};
  }

  /** No step from a reachable world in which x is fixed raises x's rank. */
  ghost predicate NeverStartsOver(me: Setup, x: Request)
    requires x.signing.Asked?
  {
    forall w, a, w' :: Reachable(me, w) && SteadyStep(me, w, a, w', x) ==> Rank(me, w', x) <= Rank(me, w, x)
  }

  /** The exact condition: signing never starts over if and only if the request has an image and lists a file. */
  lemma ConvergesIffFilesListed(me: Setup, x: Request)
    requires HashSeparates(me) && Known(me, x) && x.signing.Asked?
    ensures NeverStartsOver(me, x) <==> MustBePushed(x)
  {
    if MustBePushed(x) {
      forall w, a, w' | Reachable(me, w) && SteadyStep(me, w, a, w', x) ensures Rank(me, w', x) <= Rank(me, w, x) {
        ReachableConvInv(me, w);
        RankAlongStep(me, w, a, w', x);
      }
    } else {
      var w, w' := EmptyListStartsOver(me, x);
      assert SteadyStep(me, w, CollectJob("job"), w', x);
    }
  }
}
