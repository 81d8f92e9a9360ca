/** The XGBoostJob controller's status aggregation: for each replica type the
    pod counters are folded into job conditions and completion times, and
    the creation callback defaults a new job and marks it Created. */
module JobStatusUpdate {
  import opened Common
  import opened Api
  import opened Conditions
  import opened Status
  import opened Jobs
  import opened Defaults
  import Util

  const CreatedReason: string := "XGBoostJobCreated"
  const SucceededReason: string := "XGBoostJobSucceeded"
  const RunningReason: string := "XGBoostJobRunning"
  const FailedReason: string := "XGBoostJobFailed"
  const RestartingReason: string := "XGBoostJobRestarting"

  /** The error for an argument that is not an XGBoostJob: Go formats the
      nil pointer the failed type assertion yields. */
  const NotXGBoostJob: Error := Failure("<nil> is not a type of xgboostJob")

  function RunningMessage(name: string): string
  {
    "XGBoostJob " + name + " is running."
  }

  function SucceededMessage(name: string): string
  {
    "XGBoostJob " + name + " is successfully completed."
  }

  function RestartingMessage(name: string, failed: int, rtype: string): string
  {
    "XGBoostJob " + name + " is restarting because " + Itoa(failed) + " " + rtype + " replica(s) failed."
  }

  function FailedMessage(name: string, failed: int, rtype: string): string
  {
    "XGBoostJob " + name + " is failed because " + Itoa(failed) + " " + rtype + " replica(s) failed."
  }

  function CreatedMessage(name: string): string
  {
    "xgboostJob " + name + " is created."
  }

  /** What UpdateJobStatus changes: the conditions and completion time of
      the status it is handed, and the completion time of the job object's
      own status. */
  datatype Progress = Progress(conditions: seq<JobCondition>, completionTime: Option<int>, jobCompletionTime: Option<int>)

  /** The master has no replica left to succeed. */
  predicate MasterDone(rtype: string, spec: ReplicaSpec, rs: ReplicaStatus)
    requires spec.replicas.Some?
  {
    rtype == MasterType && spec.replicas.value - rs.succeeded == 0
  }

  /** Some replica failed and the policy does not restart on exit codes. */
  predicate FailsJob(spec: ReplicaSpec, rs: ReplicaStatus)
  {
    rs.failed > 0 && spec.restartPolicy != ExitCode
  }

  /** One iteration of the loop, for replica type rtype with counters rs. */
  function TypeStep(p: Progress, name: string, rtype: string, spec: ReplicaSpec, rs: ReplicaStatus, now: int): (q: Progress)
    requires spec.replicas.Some?
    ensures p.completionTime.Some? ==> q.completionTime == p.completionTime
    ensures q.completionTime != p.completionTime <==> p.completionTime.None? && MasterDone(rtype, spec, rs)
    ensures q.completionTime != p.completionTime ==> q.completionTime == Some(now)
    ensures p.jobCompletionTime.Some? ==> q.jobCompletionTime == p.jobCompletionTime
    ensures q.jobCompletionTime != p.jobCompletionTime <==> p.jobCompletionTime.None? && FailsJob(spec, rs)
    ensures q.jobCompletionTime != p.jobCompletionTime ==> q.jobCompletionTime == Some(now)
    ensures IsFailed(p.conditions) ==> q.conditions == p.conditions
  {
    var p1 :=
      if rtype == MasterType && rs.active > 0
      then p.(conditions := SetCondition(p.conditions, NewCondition(JobRunning, RunningReason, RunningMessage(name), now)))
      else p;
    var p2 :=
      if MasterDone(rtype, spec, rs)
      then p1.(completionTime := if p1.completionTime.None? then Some(now) else p1.completionTime,
               conditions := SetCondition(p1.conditions, NewCondition(JobSucceeded, SucceededReason, SucceededMessage(name), now)))
      else p1;
    if rs.failed > 0 && spec.restartPolicy == ExitCode then
      p2.(conditions := SetCondition(p2.conditions, NewCondition(JobRestarting, RestartingReason,
                                                                 RestartingMessage(name, rs.failed, rtype), now)))
    else if FailsJob(spec, rs) then
      p2.(jobCompletionTime := if p2.jobCompletionTime.None? then Some(now) else p2.jobCompletionTime,
          conditions := SetCondition(p2.conditions, NewCondition(JobFailed, FailedReason,
                                                                 FailedMessage(name, rs.failed, rtype), now)))
    else p2
  }

  /** The conditions one iteration leaves on a job that had not failed: an
      active master not yet done (and no failure) leaves Running, a done
      master leaves Succeeded, failures leave Restarting or Failed, and
      nothing else makes the job Failed. A Succeeded condition survives. */
  lemma StepConditions(p: Progress, name: string, rtype: string, spec: ReplicaSpec, rs: ReplicaStatus, now: int)
    requires spec.replicas.Some?
    ensures var q := TypeStep(p, name, rtype, spec, rs, now);
            ((!IsFailed(p.conditions) && rtype == MasterType && rs.active > 0 && !MasterDone(rtype, spec, rs) && rs.failed <= 0)
               ==> HasCondition(q.conditions, JobRunning)) &&
            (!IsFailed(p.conditions) && MasterDone(rtype, spec, rs) ==> HasCondition(q.conditions, JobSucceeded)) &&
            (!IsFailed(p.conditions) && rs.failed > 0 && spec.restartPolicy == ExitCode ==>
               HasCondition(q.conditions, JobRestarting)) &&
            (IsFailed(q.conditions) <==> IsFailed(p.conditions) || FailsJob(spec, rs)) &&
            (HasCondition(p.conditions, JobSucceeded) ==> HasCondition(q.conditions, JobSucceeded))
  {
    var run := NewCondition(JobRunning, RunningReason, RunningMessage(name), now);
    var done := NewCondition(JobSucceeded, SucceededReason, SucceededMessage(name), now);
    var restart := NewCondition(JobRestarting, RestartingReason, RestartingMessage(name, rs.failed, rtype), now);
    var fail := NewCondition(JobFailed, FailedReason, FailedMessage(name, rs.failed, rtype), now);
    var c0 := p.conditions;
    var c1 := if rtype == MasterType && rs.active > 0 then SetCondition(c0, run) else c0;
    var c2 := if MasterDone(rtype, spec, rs) then SetCondition(c1, done) else c1;
    var c3 := if rs.failed > 0 && spec.restartPolicy == ExitCode then SetCondition(c2, restart)
              else if FailsJob(spec, rs) then SetCondition(c2, fail) else c2;
    assert TypeStep(p, name, rtype, spec, rs, now).conditions == c3;
    // Failed: no step but the last can create it.
    if !IsFailed(c0) {
      if rtype == MasterType && rs.active > 0 {
        SetConditionNoNewTrue(c0, run, JobFailed);
        SetConditionEstablishes(c0, run);
      }
      if MasterDone(rtype, spec, rs) {
        SetConditionNoNewTrue(c1, done, JobFailed);
        SetConditionEstablishes(c1, done);
      }
      if rs.failed > 0 && spec.restartPolicy == ExitCode {
        SetConditionNoNewTrue(c2, restart, JobFailed);
        SetConditionEstablishes(c2, restart);
      } else if FailsJob(spec, rs) {
        SetConditionEstablishes(c2, fail);
      }
    }
    // Succeeded: Running, Restarting and Failed never drop it.
    if HasCondition(c0, JobSucceeded) {
      if rtype == MasterType && rs.active > 0 {
        SetConditionKeeps(c0, run, JobSucceeded);
      }
      if MasterDone(rtype, spec, rs) && !IsFailed(c1) {
        SetConditionEstablishes(c1, done);
      }
      if rs.failed > 0 && spec.restartPolicy == ExitCode {
        SetConditionKeeps(c2, restart, JobSucceeded);
      } else if FailsJob(spec, rs) {
        SetConditionKeeps(c2, fail, JobSucceeded);
      }
    } else if MasterDone(rtype, spec, rs) && !IsFailed(c1) {
      SetConditionEstablishes(c1, done);
      if rs.failed > 0 && spec.restartPolicy == ExitCode {
        SetConditionKeeps(c2, restart, JobSucceeded);
      } else if FailsJob(spec, rs) {
        SetConditionKeeps(c2, fail, JobSucceeded);
      }
    }
  }

  // ---------------------------------------------------------------------
  // The whole loop

  /** Every replica type the loop visits has a Replicas value and counters:
      the Go code dereferences both. */
  predicate Covers(replicas: map<string, ReplicaSpec>, counters: map<string, ReplicaStatus>, order: seq<string>)
  {
    forall k :: k in order ==> k in replicas && k in counters && replicas[k].replicas.Some?
  }

  /** The loop over `order`, one TypeStep per replica type. */
  function Fold(p: Progress, name: string, replicas: map<string, ReplicaSpec>, counters: map<string, ReplicaStatus>,
                order: seq<string>, now: int): Progress
    requires Covers(replicas, counters, order)
    decreases |order|
  {
    if order == [] then p
    else
      var last := order[|order| - 1];
      TypeStep(Fold(p, name, replicas, counters, order[..|order| - 1], now), name, last, replicas[last], counters[last], now)
  }

  /** The whole of UpdateJobStatus: the loop, then the Running condition
      (with the Succeeded reason) it always attempts. */
  function Outcome(p: Progress, name: string, replicas: map<string, ReplicaSpec>, counters: map<string, ReplicaStatus>,
                   order: seq<string>, now: int): Progress
    requires Covers(replicas, counters, order)
  {
    var f := Fold(p, name, replicas, counters, order, now);
    f.(conditions := SetCondition(f.conditions, NewCondition(JobRunning, SucceededReason, RunningMessage(name), now)))
  }

  /** Some visited replica type fails the job. */
  predicate AnyFails(replicas: map<string, ReplicaSpec>, counters: map<string, ReplicaStatus>, order: seq<string>)
    requires Covers(replicas, counters, order)
  {
    exists k :: k in order && FailsJob(replicas[k], counters[k])
  }

  /** The loop leaves the job Failed exactly when it already was or some
      replica type fails it; jobStatus's completion time is set (to now)
      exactly when it was unset and the master is done, and the job
      object's exactly when it was unset and some replica type fails it. */
  lemma {:induction false} FoldEffects(p: Progress, name: string, replicas: map<string, ReplicaSpec>,
                                       counters: map<string, ReplicaStatus>, order: seq<string>, now: int)
    requires Covers(replicas, counters, order)
    ensures var f := Fold(p, name, replicas, counters, order, now);
            (IsFailed(f.conditions) <==> IsFailed(p.conditions) || AnyFails(replicas, counters, order)) &&
            f.completionTime ==
              (if p.completionTime.None? &&
                  exists k :: k in order && MasterDone(k, replicas[k], counters[k])
               then Some(now) else p.completionTime) &&
            f.jobCompletionTime ==
              (if p.jobCompletionTime.None? && AnyFails(replicas, counters, order) then Some(now) else p.jobCompletionTime)
    decreases |order|
  {
    if order != [] {
      var init := order[..|order| - 1];
      var last := order[|order| - 1];
      FoldEffects(p, name, replicas, counters, init, now);
      var g := Fold(p, name, replicas, counters, init, now);
      StepConditions(g, name, last, replicas[last], counters[last], now);
      assert forall k :: k in order <==> k in init || k == last;
    }
  }

  /** With a done master and no failure, the loop leaves a True Succeeded
      condition. */
  lemma {:induction false} FoldSucceeds(p: Progress, name: string, replicas: map<string, ReplicaSpec>,
                                        counters: map<string, ReplicaStatus>, order: seq<string>, now: int)
    requires Covers(replicas, counters, order)
    requires MasterType in order && MasterDone(MasterType, replicas[MasterType], counters[MasterType])
    ensures var f := Fold(p, name, replicas, counters, order, now);
            !IsFailed(f.conditions) ==> HasCondition(f.conditions, JobSucceeded)
    decreases |order|
  {
    var init := order[..|order| - 1];
    var last := order[|order| - 1];
    var g := Fold(p, name, replicas, counters, init, now);
    StepConditions(g, name, last, replicas[last], counters[last], now);
    if last != MasterType {
      assert MasterType in init;
      FoldSucceeds(p, name, replicas, counters, init, now);
    }
  }

  /** UpdateJobStatus as a whole: Failed exactly when already Failed or some
      replica type fails the job, in which case the trailing Running
      condition changes nothing; otherwise a True Running condition is left,
      next to a True Succeeded one when the master is done. */
  lemma OutcomeConditions(p: Progress, name: string, replicas: map<string, ReplicaSpec>,
                          counters: map<string, ReplicaStatus>, order: seq<string>, now: int)
    requires Covers(replicas, counters, order)
    ensures var f := Fold(p, name, replicas, counters, order, now);
            var o := Outcome(p, name, replicas, counters, order, now);
            (IsFailed(o.conditions) <==> IsFailed(p.conditions) || AnyFails(replicas, counters, order)) &&
            (IsFailed(o.conditions) ==> o.conditions == f.conditions) &&
            (!IsFailed(o.conditions) ==> HasCondition(o.conditions, JobRunning)) &&
            (!IsFailed(o.conditions) && MasterType in order &&
             MasterDone(MasterType, replicas[MasterType], counters[MasterType]) ==>
               HasCondition(o.conditions, JobSucceeded))
  {
    var f := Fold(p, name, replicas, counters, order, now);
    var run := NewCondition(JobRunning, SucceededReason, RunningMessage(name), now);
    FoldEffects(p, name, replicas, counters, order, now);
    if !IsFailed(f.conditions) {
      SetConditionNoNewTrue(f.conditions, run, JobFailed);
      SetConditionEstablishes(f.conditions, run);
      if MasterType in order && MasterDone(MasterType, replicas[MasterType], counters[MasterType]) {
        FoldSucceeds(p, name, replicas, counters, order, now);
        SetConditionKeeps(f.conditions, run, JobSucceeded);
      }
    }
  }

  // ---------------------------------------------------------------------
  // The methods

  function Snapshot(job: XGBoostJob, jobStatus: JobStatus): Progress
    reads job, job.status, jobStatus
  {
    Progress(jobStatus.conditions, jobStatus.completionTime, job.status.completionTime)
  }

  /** The loop body for one replica type. */
  method ApplyReplicaType(job: XGBoostJob, jobStatus: JobStatus, rtype: string, spec: ReplicaSpec, rs: ReplicaStatus, now: int)
    requires spec.replicas.Some? && jobStatus != job.status
    modifies jobStatus`conditions, jobStatus`completionTime, job.status`completionTime
    ensures Snapshot(job, jobStatus) == TypeStep(old(Snapshot(job, jobStatus)), job.meta.name, rtype, spec, rs, now)
  {
    var name := job.meta.name;
    var expected := spec.replicas.value - rs.succeeded;
    var running := rs.active;
    var failed := rs.failed;
    if rtype == MasterType {
      if running > 0 {
        var _ := UpdateJobConditions(jobStatus, JobRunning, RunningReason, RunningMessage(name), now);
      }
      if expected == 0 {
        if jobStatus.completionTime.None? {
          jobStatus.completionTime := Some(now);
        }
        var _ := UpdateJobConditions(jobStatus, JobSucceeded, SucceededReason, SucceededMessage(name), now);
      }
    }
    if failed > 0 {
      if spec.restartPolicy == ExitCode {
        var _ := UpdateJobConditions(jobStatus, JobRestarting, RestartingReason, RestartingMessage(name, failed, rtype), now);
      } else {
        if job.status.completionTime.None? {
          job.status.completionTime := Some(now);
        }
        var _ := UpdateJobConditions(jobStatus, JobFailed, FailedReason, FailedMessage(name, failed, rtype), now);
      }
    }
  }

  /** Readiness of the counters: the Go loop reads jobStatus's entry of
      every replica type and dereferences each spec's Replicas (a nil
      counter map is read as empty, which only an empty replica map can
      afford). */
  predicate Ready(replicas: map<string, ReplicaSpec>, statuses: Option<map<string, ReplicaStatus>>)
  {
    forall k :: k in replicas ==> k in CountersOf(statuses) && replicas[k].replicas.Some?
  }

  /** UpdateJobStatus, ranging over `replicas` in `order`. The status it is
      handed is a copy, distinct from the job object's own status. */
  method UpdateJobStatus(isXGBoostJob: bool, job: XGBoostJob, replicas: map<string, ReplicaSpec>, order: seq<string>,
                         jobStatus: JobStatus, now: int)
    returns (err: Option<Error>)
    requires Util.Enumerates(replicas, order)
    requires isXGBoostJob ==> Ready(replicas, jobStatus.replicaStatuses)
    requires jobStatus != job.status
    modifies jobStatus`conditions, jobStatus`completionTime, job.status`completionTime
    ensures !isXGBoostJob ==> err == Some(NotXGBoostJob) && Snapshot(job, jobStatus) == old(Snapshot(job, jobStatus))
    ensures isXGBoostJob ==>
              err == None && Covers(replicas, CountersOf(jobStatus.replicaStatuses), order) &&
              Snapshot(job, jobStatus) ==
                Outcome(old(Snapshot(job, jobStatus)), job.meta.name, replicas, CountersOf(jobStatus.replicaStatuses), order, now)
  {
    if !isXGBoostJob {
      return Some(NotXGBoostJob);
    }
    var counters := CountersOf(jobStatus.replicaStatuses);
    assert Covers(replicas, counters, order);
    var name := job.meta.name;
    ghost var p0 := Snapshot(job, jobStatus);
    for i := 0 to |order|
      invariant Snapshot(job, jobStatus) == Fold(p0, name, replicas, counters, order[..i], now)
    {
      var rtype := order[i];
      ApplyReplicaType(job, jobStatus, rtype, replicas[rtype], counters[rtype], now);
      assert order[..i + 1][..i] == order[..i];
    }
    assert order[..|order|] == order;
    var _ := UpdateJobConditions(jobStatus, JobRunning, SucceededReason, RunningMessage(name), now);
    assert CountersOf(jobStatus.replicaStatuses) == counters;
    err := None;
  }

  /** onOwnerCreateFunc: an XGBoostJob is defaulted and gets a Created
      condition on its own status; every event passes. */
  method OnOwnerCreate(isXGBoostJob: bool, job: XGBoostJob, now: int) returns (pass: bool)
    requires isXGBoostJob ==> HasContainers(job.specs)
    modifies job`specs, job`runPolicy, job.status`conditions
    ensures pass
    ensures !isXGBoostJob ==> job.specs == old(job.specs) && job.runPolicy == old(job.runPolicy) &&
                              job.status.conditions == old(job.status.conditions)
    ensures isXGBoostJob ==>
              DefaultsResult(old(job.specs), job.specs) && job.runPolicy == CleanPodPolicyDefaulted(old(job.runPolicy)) &&
              job.status.conditions ==
                SetCondition(old(job.status.conditions), NewCondition(JobCreated, CreatedReason, CreatedMessage(job.meta.name), now))
  {
    if !isXGBoostJob {
      return true;
    }
    SetDefaults(job);
    var _ := UpdateJobConditions(job.status, JobCreated, CreatedReason, CreatedMessage(job.meta.name), now);
    pass := true;
  }

  /** A newly created job without conditions ends up with exactly the
      Created condition. */
  lemma CreatedOnFreshJob(name: string, now: int)
    ensures SetCondition([], NewCondition(JobCreated, CreatedReason, CreatedMessage(name), now)) ==
            [NewCondition(JobCreated, CreatedReason, CreatedMessage(name), now)]
  {
    var c := NewCondition(JobCreated, CreatedReason, CreatedMessage(name), now);
    assert !HasCondition([], JobFailed);
    assert GetCondition([], JobCreated).None?;
  }
}
