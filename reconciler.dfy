/** The controller-runtime reconciler of XGBoostJob: fetch the job, gate on
    expectations and deletion, default it, hand it to the generic
    ReconcileJobs and persist its status through the status subresource. */
module Reconciler {
  import opened Common
  import opened Api
  import opened Status
  import opened Client
  import opened JobController
  import opened Jobs
  import opened Defaults
  import Expectations
  import Tracker

  /** The error for an argument that is not an XGBoostJob. */
  const NotXGBoostJobObject: Error := Failure("<nil> is not a type of XGBoostJob")

  function SnapshotOf(s: JobStatus): (r: StatusSnapshot)
    reads s
    ensures r.conditions == s.conditions && r.replicaStatuses == s.replicaStatuses
    ensures r.startTime == s.startTime && r.completionTime == s.completionTime
  {
    StatusSnapshot(s.conditions, s.replicaStatuses, s.startTime, s.completionTime)
  }

  /** UpdateJobStatusInApiServer: when the passed-in status differs from the
      job's own, a copy of the job carrying it is written, otherwise the job
      itself; either way the status written is the passed-in one and the
      job object is left as it is. */
  method UpdateJobStatusInApiServer(isXGBoostJob: bool, job: XGBoostJob, jobStatus: JobStatus, client: ApiClient)
    returns (err: Option<Error>)
    modifies client
    ensures !isXGBoostJob ==> err == Some(NotXGBoostJobObject) && client.requests == old(client.requests)
    ensures isXGBoostJob ==>
              client.requests ==
                old(client.requests) + [UpdateStatusRequest(job.meta.namespace, job.meta.name, SnapshotOf(jobStatus))] &&
              err == client.reply(|old(client.requests)|)
  {
    if !isXGBoostJob {
      return Some(NotXGBoostJobObject);
    }
    var written := SnapshotOf(job.status);
    if written != SnapshotOf(jobStatus) {
      // the copy of the job with the passed-in status
      written := SnapshotOf(jobStatus);
    }
    err := client.Send(UpdateStatusRequest(job.meta.namespace, job.meta.name, written));
  }

  /** Reconcile for one request. `getErr` is the answer of the fetch (the
      fetched object is `job`); ReconcileJobs, which is not part of this
      model, answers `reconcileErr`. It returns the error and whether
      ReconcileJobs ran. The status copy taken before defaulting has another
      Go type than the status it is compared with, so the comparison never
      finds them equal and the status is written after every successful
      ReconcileJobs. Defaulting indexes every spec's containers, so a job
      that gets past the gate must have some; one stopped by the gate or
      being deleted need not. */
  method Reconcile(getErr: Option<Error>, job: XGBoostJob, tracker: Tracker.ExpectationTracker,
                   reconcileErr: Option<Error>, client: ApiClient)
    returns (err: Option<Error>, reconciled: bool)
    requires getErr.None? && Expectations.AnySatisfied(tracker, JobKey(job.meta), job.specs) && !job.deleting ==>
               HasContainers(job.specs)
    modifies job`specs, job`runPolicy, client
    ensures getErr == Some(NotFound) ==> err.None? && !reconciled
    ensures getErr.Some? && getErr != Some(NotFound) ==> err == getErr && !reconciled
    ensures reconciled <==>
              getErr.None? && Expectations.AnySatisfied(tracker, JobKey(job.meta), old(job.specs)) && !job.deleting
    ensures !reconciled ==>
              client.requests == old(client.requests) && job.specs == old(job.specs) && job.runPolicy == old(job.runPolicy)
    ensures !reconciled && getErr.None? ==> err.None?
    ensures reconciled ==>
              DefaultsResult(old(job.specs), job.specs) && job.runPolicy == CleanPodPolicyDefaulted(old(job.runPolicy))
    ensures reconciled && reconcileErr.Some? ==> err == reconcileErr && client.requests == old(client.requests)
    ensures reconciled && reconcileErr.None? ==>
              client.requests ==
                old(client.requests) + [UpdateStatusRequest(job.meta.namespace, job.meta.name, SnapshotOf(job.status))] &&
              err == client.reply(|old(client.requests)|)
  {
    if getErr.Some? {
      if getErr.value == NotFound {
        return None, false;
      }
      return getErr, false;
    }
    var needSync := Expectations.SatisfiedExpectations(tracker, job.meta, job.specs);
    if !needSync || job.deleting {
      return None, false;
    }
    err := ReconcileAdmitted(job, reconcileErr, client);
    reconciled := true;
  }

  /** The part of Reconcile after the gate: default the job, run
      ReconcileJobs and, when it succeeds, write the job's status. */
  method ReconcileAdmitted(job: XGBoostJob, reconcileErr: Option<Error>, client: ApiClient) returns (err: Option<Error>)
    requires HasContainers(job.specs)
    modifies job`specs, job`runPolicy, client
    ensures DefaultsResult(old(job.specs), job.specs) && job.runPolicy == CleanPodPolicyDefaulted(old(job.runPolicy))
    ensures reconcileErr.Some? ==> err == reconcileErr && client.requests == old(client.requests)
    ensures reconcileErr.None? ==>
              client.requests ==
                old(client.requests) + [UpdateStatusRequest(job.meta.namespace, job.meta.name, SnapshotOf(job.status))] &&
              err == client.reply(|old(client.requests)|)
  {
    SetDefaults(job);
    if reconcileErr.Some? {
      return reconcileErr;
    }
    err := UpdateJobStatusInApiServer(true, job, job.status, client);
  }
}
