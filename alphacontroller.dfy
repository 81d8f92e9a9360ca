/** The v1alpha1 XGBoostJob controller's decisions: the expectation gate, the
    sync of one work-queue key (key split, informer lookup, reconcile only
    when expectations allow and the job is not being deleted), the
    backoff-limit predicate, the terminal branch of a reconcile pass and the
    handling of one work item. */
module AlphaController {
  import opened Common
  import opened Api
  import opened Conditions
  import opened Status
  import opened Tracker
  import opened JobController
  import opened Jobs
  import Expectations
  import Util

  // ---------------------------------------------------------------------
  // satisfiedExpectations

  /** satisfiedExpectations: returns at the first replica type whose pods
      key, or else services key, is satisfied. */
  method AlphaSatisfiedExpectations(tracker: ExpectationTracker, job: Meta, specs: map<string, ReplicaSpec>)
    returns (satisfied: bool)
    ensures satisfied <==> Expectations.AnySatisfied(tracker, JobKey(job), specs)
    ensures specs == map[] ==> !satisfied
  {
    var key := JobKey(job);
    var rest := specs.Keys;
    while rest != {}
      invariant rest <= specs.Keys
      invariant forall rt :: rt in specs && rt !in rest ==>
                  !tracker.Satisfied(PodsKey(key, rt)) && !tracker.Satisfied(ServicesKey(key, rt))
      decreases rest
    {
      var rtype :| rtype in rest;
      if tracker.Satisfied(PodsKey(key, rtype)) {
        return true;
      }
      if tracker.Satisfied(ServicesKey(key, rtype)) {
        return true;
      }
      rest := rest - {rtype};
    }
    return false;
  }

  // ---------------------------------------------------------------------
  // Keys

  /** The position of the first slash, if any. */
  function FirstSlash(s: string): (r: Option<nat>)
    ensures r.None? <==> '/' !in s
    ensures r.Some? ==> r.value < |s| && s[r.value] == '/' && '/' !in s[..r.value]
    decreases |s|
  {
    if s == [] then None
    else if s[0] == '/' then Some(0)
    else
      match FirstSlash(s[1..])
      case None => None
      case Some(i) =>
        assert s[..i + 1] == [s[0]] + s[1..][..i];
        Some(i + 1)
  }

  /** The error of SplitMetaNamespaceKey for a key with two or more
      slashes. Go formats the key with %q; here it is quoted without
      escaping, so a key holding a quote or a non-printable character reads
      differently. */
  function UnexpectedKeyFormat(key: string): Error
  {
    Failure("unexpected key format: \"" + key + "\"")
  }

  /** cache.SplitMetaNamespaceKey: "name" gives an empty namespace,
      "namespace/name" both parts, and a key with two or more slashes an
      error. */
  function SplitKey(key: string): (r: Result<(string, string)>)
    ensures r.Err? <==> exists i, j :: 0 <= i < j < |key| && key[i] == '/' && key[j] == '/'
    ensures r.Err? ==> r.error == UnexpectedKeyFormat(key)
    ensures r.Ok? ==> '/' !in r.value.0 && '/' !in r.value.1 &&
                      ((r.value.0 == "" && key == r.value.1) || key == r.value.0 + "/" + r.value.1)
  {
    match FirstSlash(key)
    case None => Ok(("", key))
    case Some(i) =>
      var tail := key[i + 1..];
      if '/' in tail then
        var j :| 0 <= j < |tail| && tail[j] == '/';
        assert key[i + 1 + j] == '/';
        Err(UnexpectedKeyFormat(key))
      else
        assert key == key[..i] + "/" + tail;
        forall a | 0 <= a < |key| && a != i ensures key[a] != '/' {
          if a < i {
            assert key[a] == key[..i][a];
          } else {
            assert key[a] == tail[a - i - 1];
          }
        }
        Ok((key[..i], tail))
  }

  /** The key of an object whose namespace and name carry no slash splits
      back into them. */
  lemma SplitJobKey(m: Meta)
    requires '/' !in m.namespace && '/' !in m.name
    ensures SplitKey(JobKey(m)) == Ok((m.namespace, m.name))
  {
    var k := JobKey(m);
    if |m.namespace| > 0 {
      assert k[|m.namespace|] == '/';
      assert k[..|m.namespace|] == m.namespace;
      assert k[|m.namespace| + 1..] == m.name;
      assert FirstSlash(k) == Some(|m.namespace|);
    }
  }

  // ---------------------------------------------------------------------
  // syncXGBoostJob

  /** The job as the informer cache holds it; each lookup builds a fresh
      XGBoostJob from it. */
  datatype JobObject = JobObject(meta: Meta, specs: map<string, ReplicaSpec>, deleting: bool)

  /** The informer index: a missing key is a deleted job; an Err entry is
      an index or conversion failure. */
  type Informer = map<string, Result<JobObject>>

  const ErrNotExists: Error := Failure("the object is not found")

  /** The error for a key whose namespace or name is empty, quoted as in
      UnexpectedKeyFormat (without %q's escaping). */
  function InvalidJobKey(key: string): Error
  {
    Failure("invalid job key \"" + key + "\": either namespace or name is missing")
  }

  /** What syncXGBoostJob returns (forget, error), and whether it ran
      ReconcileJobs. */
  datatype SyncResult = SyncResult(forget: bool, err: Option<Error>, reconciled: bool)

  /** syncXGBoostJob on `key`; ReconcileJobs, which is not part of this
      model, answers reconcileErr. */
  ghost function SyncSpec(key: string, informer: Informer, tracker: ExpectationTracker, reconcileErr: Option<Error>): SyncResult
    reads tracker
  {
    match SplitKey(key)
    case Err(e) => SyncResult(false, Some(e), false)
    case Ok(parts) =>
      if parts.0 == "" || parts.1 == "" then SyncResult(false, Some(InvalidJobKey(key)), false)
      else
        var k := parts.0 + "/" + parts.1;
        if k !in informer then SyncResult(true, None, false)
        else if informer[k].Err? then SyncResult(false, Some(informer[k].error), false)
        else
          var job := informer[k].value;
          if Expectations.AnySatisfied(tracker, JobKey(job.meta), job.specs) && !job.deleting
          then SyncResult(reconcileErr.None?, reconcileErr, true)
          else SyncResult(true, None, false)
  }

  method SyncXGBoostJob(key: string, informer: Informer, tracker: ExpectationTracker, reconcileErr: Option<Error>)
    returns (r: SyncResult)
    ensures r == SyncSpec(key, informer, tracker, reconcileErr)
  {
    var split := SplitKey(key);
    if split.Err? {
      return SyncResult(false, Some(split.error), false);
    }
    var (namespace, name) := split.value;
    if |namespace| == 0 || |name| == 0 {
      return SyncResult(false, Some(InvalidJobKey(key)), false);
    }
    var k := namespace + "/" + name;
    if k !in informer {
      return SyncResult(true, None, false);
    }
    if informer[k].Err? {
      return SyncResult(false, Some(informer[k].error), false);
    }
    var job := informer[k].value;
    var needsSync := AlphaSatisfiedExpectations(tracker, job.meta, job.specs);
    if needsSync && !job.deleting {
      if reconcileErr.Some? {
        return SyncResult(false, reconcileErr, true);
      }
      return SyncResult(true, None, true);
    }
    return SyncResult(true, None, false);
  }

  /** A sync either forgets the key without error or reports an error and
      keeps it; ReconcileJobs runs exactly for a well-formed key of a job
      in the cache whose expectations allow it and which is not being
      deleted; a deleted job is forgotten quietly; a key lacking its
      namespace or name is an error. */
  lemma SyncRules(key: string, informer: Informer, tracker: ExpectationTracker, reconcileErr: Option<Error>)
    ensures var r := SyncSpec(key, informer, tracker, reconcileErr);
            (r.forget <==> r.err.None?) &&
            (r.reconciled <==>
               SplitKey(key).Ok? && SplitKey(key).value.0 != "" && SplitKey(key).value.1 != "" &&
               key in informer && informer[key].Ok? && !informer[key].value.deleting &&
               Expectations.AnySatisfied(tracker, JobKey(informer[key].value.meta), informer[key].value.specs)) &&
            (r.reconciled ==> r.err == reconcileErr) &&
            (SplitKey(key).Ok? && (SplitKey(key).value.0 == "" || SplitKey(key).value.1 == "") ==>
               r.err == Some(InvalidJobKey(key))) &&
            (SplitKey(key).Ok? && SplitKey(key).value.0 != "" && SplitKey(key).value.1 != "" && key !in informer ==>
               r == SyncResult(true, None, false))
  {
  }

  // ---------------------------------------------------------------------
  // The work queue and processNextWorkItem

  /** A work-queue item: a job key, or anything else. */
  datatype Item = KeyItem(key: string) | OtherItem(id: int)

  /** A rate-limited work queue: the pending items, the items being
      processed and, per item, the number of rate-limited re-adds since it
      was last forgotten. The delayed re-add itself runs on a clock and is
      not modelled. */
  class WorkQueue {
    var queue: seq<Item>
    var processing: set<Item>
    var requeues: map<Item, nat>
    var shuttingDown: bool

    constructor (items: seq<Item>)
      ensures queue == items && processing == {} && requeues == map[] && !shuttingDown
    {
      queue := items;
      processing := {};
      requeues := map[];
      shuttingDown := false;
    }

    /** Get hands out the head item; it reports quit only once the queue
        is shutting down and empty (otherwise Go blocks). */
    method Get() returns (item: Option<Item>, quit: bool)
      requires queue != [] || shuttingDown
      modifies this`queue, this`processing
      ensures quit <==> old(queue) == []
      ensures quit ==> item.None? && queue == old(queue) && processing == old(processing)
      ensures !quit ==> item == Some(old(queue)[0]) && queue == old(queue)[1..] &&
                        processing == old(processing) + {old(queue)[0]}
    {
      if queue == [] {
        return None, true;
      }
      item := Some(queue[0]);
      processing := processing + {queue[0]};
      queue := queue[1..];
      quit := false;
    }

    method Done(item: Item)
      modifies this`processing
      ensures processing == old(processing) - {item}
    {
      processing := processing - {item};
    }

    /** Forget clears the item's re-add count. */
    method Forget(item: Item)
      modifies this`requeues
      ensures requeues == old(requeues) - {item}
      ensures item !in requeues
    {
      requeues := requeues - {item};
    }

    method AddRateLimited(item: Item)
      modifies this`requeues
      ensures requeues == old(requeues)[item := RequeueCount(old(requeues), item) + 1]
    {
      requeues := requeues[item := RequeueCount(requeues, item) + 1];
    }

    method NumRequeues(item: Item) returns (n: nat)
      ensures n == RequeueCount(requeues, item)
      ensures item !in requeues ==> n == 0
    {
      n := if item in requeues then requeues[item] else 0;
    }
  }

  function RequeueCount(requeues: map<Item, nat>, item: Item): nat
  {
    if item in requeues then requeues[item] else 0
  }

  /** The re-add counts after one processed item: a non-key item is
      forgotten; a key the informer cannot produce changes nothing;
      otherwise a sync error re-adds the key and a sync that says forget
      forgets it. */
  ghost function RequeuesAfter(requeues: map<Item, nat>, item: Item, informer: Informer,
                               tracker: ExpectationTracker, reconcileErr: Option<Error>): map<Item, nat>
    reads tracker
  {
    match item
    case OtherItem(_) => requeues - {item}
    case KeyItem(key) =>
      if key !in informer || informer[key].Err? then requeues
      else
        var s := SyncSpec(key, informer, tracker, reconcileErr);
        if s.err.Some? then requeues[item := RequeueCount(requeues, item) + 1]
        else if s.forget then requeues - {item}
        else requeues
  }

  /** processNextWorkItem: false only when the queue quits; the item taken
      is marked done again, whatever happened to it. */
  method ProcessNextWorkItem(queue: WorkQueue, informer: Informer, tracker: ExpectationTracker, reconcileErr: Option<Error>)
    returns (more: bool)
    requires queue.queue != [] || queue.shuttingDown
    modifies queue
    ensures more <==> old(queue.queue) != []
    ensures !more ==> queue.queue == old(queue.queue) && queue.processing == old(queue.processing) &&
                      queue.requeues == old(queue.requeues)
    ensures more ==> queue.queue == old(queue.queue)[1..] &&
                     queue.processing == old(queue.processing) - {old(queue.queue)[0]} &&
                     queue.requeues == RequeuesAfter(old(queue.requeues), old(queue.queue)[0], informer, tracker, reconcileErr)
    ensures queue.shuttingDown == old(queue.shuttingDown)
  {
    var obj, quit := queue.Get();
    if quit {
      return false;
    }
    var item := obj.value;
    if item.OtherItem? {
      queue.Forget(item);
      queue.Done(item);
      return true;
    }
    var key := item.key;
    if key !in informer || informer[key].Err? {
      queue.Done(item);
      return true;
    }
    var r := SyncXGBoostJob(key, informer, tracker, reconcileErr);
    if r.err.None? {
      if r.forget {
        queue.Forget(item);
      }
      queue.Done(item);
      return true;
    }
    queue.AddRateLimited(item);
    queue.Done(item);
    more := true;
  }

  /** A processed non-key item, and a key whose sync succeeded, leave no
      re-add count behind; a key whose sync failed has one more than
      before. */
  lemma ProcessedItemSettles(requeues: map<Item, nat>, item: Item, informer: Informer,
                             tracker: ExpectationTracker, reconcileErr: Option<Error>)
    ensures var after := RequeuesAfter(requeues, item, informer, tracker, reconcileErr);
            (item.OtherItem? ==> item !in after) &&
            (item.KeyItem? && item.key in informer && informer[item.key].Ok? ==>
               var s := SyncSpec(item.key, informer, tracker, reconcileErr);
               (s.err.None? ==> item !in after) &&
               (s.err.Some? ==> RequeueCount(after, item) == RequeueCount(requeues, item) + 1)) &&
            (forall other :: other != item ==> RequeueCount(after, other) == RequeueCount(requeues, other))
  {
    if item.KeyItem? && item.key in informer && informer[item.key].Ok? {
      SyncRules(item.key, informer, tracker, reconcileErr);
    }
  }

  // ---------------------------------------------------------------------
  // Backoff limit and the terminal branch

  /** exceedsBackoffLimit: the pod counts are converted to int32, and so is
      the retry count before one is added (in int32). */
  function ExceedsBackoffLimit(backoffLimit: Option<int>, numActive: nat, numFailed: nat, prevFailed: int,
                               totalReplicas: int, previousRetry: int): bool
  {
    backoffLimit.Some? &&
    Util.Wrap32(numFailed) > prevFailed &&
    Util.Wrap32(numActive) != totalReplicas &&
    Util.Wrap32(Util.Wrap32(previousRetry) + 1) > backoffLimit.value
  }

  /** Within int32 range the limit is exceeded exactly when it is set, a new
      failure appeared, not every replica is active, and the retries so far
      plus this one pass the limit; the more retries, the more it holds. */
  lemma BackoffInRange(backoffLimit: Option<int>, numActive: nat, numFailed: nat, prevFailed: int,
                       totalReplicas: int, previousRetry: int, laterRetry: int)
    requires numActive < Util.Two31 && numFailed < Util.Two31
    requires 0 <= previousRetry <= laterRetry < Util.Two31 - 1
    ensures ExceedsBackoffLimit(backoffLimit, numActive, numFailed, prevFailed, totalReplicas, previousRetry) <==>
              backoffLimit.Some? && numFailed > prevFailed && numActive != totalReplicas &&
              previousRetry + 1 > backoffLimit.value
    ensures ExceedsBackoffLimit(backoffLimit, numActive, numFailed, prevFailed, totalReplicas, previousRetry) ==>
              ExceedsBackoffLimit(backoffLimit, numActive, numFailed, prevFailed, totalReplicas, laterRetry)
  {
  }

  /** Succeeded adds the active count and clears it. */
  function Retired(rs: ReplicaStatus): (r: ReplicaStatus)
    ensures r.active == 0 && r.failed == rs.failed && Total(r) == Total(rs)
  {
    rs.(succeeded := rs.succeeded + rs.active, active := 0)
  }

  function RetiredAll(m: map<string, ReplicaStatus>): (r: map<string, ReplicaStatus>)
    ensures r.Keys == m.Keys
    ensures forall k :: k in r ==> r[k].active == 0 && r[k].failed == m[k].failed && Total(r[k]) == Total(m[k])
  {
    map k | k in m :: Retired(m[k])
  }

  /** Retiring twice is retiring once. */
  lemma RetiredAllIdempotent(m: map<string, ReplicaStatus>)
    ensures RetiredAll(RetiredAll(m)) == RetiredAll(m)
  {
    var once := RetiredAll(m);
    assert forall k :: k in once ==> Retired(once[k]) == once[k];
  }

  /** The loop over ReplicaStatuses of a succeeded job; a nil map is left
      as it is. */
  method MoveActiveToSucceeded(status: JobStatus)
    modifies status`replicaStatuses
    ensures status.replicaStatuses ==
            (if old(status.replicaStatuses).None? then None else Some(RetiredAll(old(status.replicaStatuses).value)))
  {
    if status.replicaStatuses.None? {
      return;
    }
    var m0 := status.replicaStatuses.value;
    var rest := m0.Keys;
    while rest != {}
      invariant rest <= m0.Keys
      invariant status.replicaStatuses.Some? && status.replicaStatuses.value.Keys == m0.Keys
      invariant forall k :: k in m0 && k !in rest ==> status.replicaStatuses.value[k] == Retired(m0[k])
      invariant forall k :: k in rest ==> status.replicaStatuses.value[k] == m0[k]
      decreases rest
    {
      var rtype :| rtype in rest;
      var m := status.replicaStatuses.value;
      var rs := m[rtype];
      rs := rs.(succeeded := rs.succeeded + rs.active);
      rs := rs.(active := 0);
      status.replicaStatuses := Some(m[rtype := rs]);
      rest := rest - {rtype};
    }
    assert status.replicaStatuses.value == RetiredAll(m0);
  }

  function BackoffMessage(name: string): string
  {
    "PyTorchJob " + name + " has failed because it has reached the specified backoff limit"
  }

  function DeadlineMessage(name: string): string
  {
    "PyTorchJob " + name + " has failed because it was active longer than specified deadline"
  }

  /** Why the job has reached a limit, if it has: the backoff limit
      (exceeded, or past it, both only with a limit set) before the active
      deadline. */
  function LimitMessage(name: string, limitSet: bool, exceedsBackoff: bool, pastBackoff: bool, pastDeadline: bool): (r: Option<string>)
    ensures r.None? <==> !exceedsBackoff && !(limitSet && pastBackoff) && !pastDeadline
    ensures r.Some? && (exceedsBackoff || (limitSet && pastBackoff)) ==> r.value == BackoffMessage(name)
  {
    if exceedsBackoff || (limitSet && pastBackoff) then Some(BackoffMessage(name))
    else if pastDeadline then Some(DeadlineMessage(name))
    else None
  }

  /** The terminal branch of reconcileXGBoostJobs, taken when the job has
      succeeded or failed or reached a limit; it returns whether it was
      taken (the per-replica reconcile is skipped then). Deleting the pods
      and services, the cleanup and the PodGroup removal are not part of
      this model; pastBackoffLimit and pastActiveDeadline come in as
      answers, as does the condition reason the code uses. The branch ends
      by handing the job to the controller's status handler, which is not
      part of this model either: its answer `handlerErr` is what the branch
      returns. */
  method ReconcileTerminal(job: XGBoostJob, numActive: nat, numFailed: nat, prevFailed: int, totalReplicas: int,
                           previousRetry: int, pastBackoff: bool, pastDeadline: bool, failedReason: string, now: int,
                           handlerErr: Option<Error>)
    returns (terminated: bool, err: Option<Error>)
    modifies job.status`conditions, job.status`completionTime, job.status`replicaStatuses
    ensures terminated ==> err == handlerErr
    ensures !terminated ==> err.None?
    ensures var limitSet := job.runPolicy.backoffLimit.Some?;
            var exceeds := ExceedsBackoffLimit(job.runPolicy.backoffLimit, numActive, numFailed, prevFailed, totalReplicas, previousRetry);
            var msg := LimitMessage(job.meta.name, limitSet, exceeds, pastBackoff, pastDeadline);
            (terminated <==> IsSucceeded(old(job.status.conditions)) || IsFailed(old(job.status.conditions)) || msg.Some?) &&
            (!terminated ==> job.status.conditions == old(job.status.conditions) &&
                             job.status.completionTime == old(job.status.completionTime) &&
                             job.status.replicaStatuses == old(job.status.replicaStatuses)) &&
            (terminated ==>
               job.status.conditions ==
                 (if msg.Some? then SetCondition(old(job.status.conditions), NewCondition(JobFailed, failedReason, msg.value, now))
                  else old(job.status.conditions)) &&
               job.status.completionTime ==
                 (if msg.Some? && old(job.status.completionTime).None? then Some(now) else old(job.status.completionTime)) &&
               job.status.replicaStatuses ==
                 (if IsSucceeded(job.status.conditions) && old(job.status.replicaStatuses).Some?
                  then Some(RetiredAll(old(job.status.replicaStatuses).value)) else old(job.status.replicaStatuses)))
  {
    var jobExceedsLimit, failureMessage :=
      FailureDecision(job.meta.name, job.runPolicy.backoffLimit, numActive, numFailed, prevFailed, totalReplicas,
                      previousRetry, pastBackoff, pastDeadline);
    if IsSucceeded(job.status.conditions) || IsFailed(job.status.conditions) || jobExceedsLimit {
      FinishTerminal(job.status, jobExceedsLimit, failureMessage, failedReason, now);
      return true, handlerErr;
    }
    return false, None;
  }

  /** The limit part of reconcileXGBoostJobs: the backoff predicate and
      pastBackoffLimit only count when a limit is set. */
  method FailureDecision(name: string, backoffLimit: Option<int>, numActive: nat, numFailed: nat, prevFailed: int,
                         totalReplicas: int, previousRetry: int, pastBackoff: bool, pastDeadline: bool)
    returns (jobExceedsLimit: bool, failureMessage: string)
    ensures var msg := LimitMessage(name, backoffLimit.Some?,
                                    ExceedsBackoffLimit(backoffLimit, numActive, numFailed, prevFailed, totalReplicas, previousRetry),
                                    pastBackoff, pastDeadline);
            (jobExceedsLimit <==> msg.Some?) && (jobExceedsLimit ==> failureMessage == msg.value)
  {
    var exceeds := false;
    var pastBackoffLimit := false;
    if backoffLimit.Some? {
      exceeds := ExceedsBackoffLimit(backoffLimit, numActive, numFailed, prevFailed, totalReplicas, previousRetry);
      pastBackoffLimit := pastBackoff;
    }
    jobExceedsLimit := false;
    failureMessage := "";
    if exceeds || pastBackoffLimit {
      jobExceedsLimit := true;
      failureMessage := BackoffMessage(name);
    } else if pastDeadline {
      failureMessage := DeadlineMessage(name);
      jobExceedsLimit := true;
    }
  }

  /** The status updates of the terminal branch: for a reached limit the
      completion time (only if unset) and a Failed condition; then, for a
      succeeded job, the active counts move to succeeded. */
  method FinishTerminal(status: JobStatus, jobExceedsLimit: bool, failureMessage: string, failedReason: string, now: int)
    modifies status`conditions, status`completionTime, status`replicaStatuses
    ensures status.conditions ==
              (if jobExceedsLimit then SetCondition(old(status.conditions), NewCondition(JobFailed, failedReason, failureMessage, now))
               else old(status.conditions))
    ensures status.completionTime ==
              (if jobExceedsLimit && old(status.completionTime).None? then Some(now) else old(status.completionTime))
    ensures status.replicaStatuses ==
              (if IsSucceeded(status.conditions) && old(status.replicaStatuses).Some?
               then Some(RetiredAll(old(status.replicaStatuses).value)) else old(status.replicaStatuses))
  {
    if jobExceedsLimit {
      if status.completionTime.None? {
        status.completionTime := Some(now);
      }
      var _ := UpdateJobConditions(status, JobFailed, failedReason, failureMessage, now);
    }
    if IsSucceeded(status.conditions) {
      MoveActiveToSucceeded(status);
    }
  }

  /** After the terminal branch for a reached limit the job is Failed, and
      it is Succeeded exactly when it was before. */
  lemma LimitFailsJob(conds: seq<JobCondition>, failedReason: string, msg: string, now: int)
    ensures var after := SetCondition(conds, NewCondition(JobFailed, failedReason, msg, now));
            IsFailed(after) && (IsSucceeded(after) <==> IsSucceeded(conds))
  {
    var c := NewCondition(JobFailed, failedReason, msg, now);
    if !IsFailed(conds) {
      SetConditionEstablishes(conds, c);
    }
    if IsSucceeded(conds) {
      SetConditionKeeps(conds, c, JobSucceeded);
    } else {
      SetConditionNoNewTrue(conds, c, JobSucceeded);
    }
  }
}
