/** The generic job controller's pod reconciliation for one replica type:
    select the type's pods, bucket them into replica slots, create a pod
    for every empty slot, restart failed pods under the ExitCode policy and
    count the pods of singly-occupied slots into the replica status. */
module Pods {
  import opened Common
  import opened Api
  import opened Status
  import opened Tracker
  import opened Client
  import opened JobController
  import opened Slots

  /** What a concrete job controller contributes to pod reconciliation:
      its policy values, its SetClusterSpec hook (which may fail), its
      IsMasterRole decision and the retryable-exit-code rule. */
  datatype PodControl = PodControl(
    policy: Policy,
    setClusterSpec: (PodTemplate, string, string) -> Result<PodTemplate>,
    isMasterRole: (map<string, ReplicaSpec>, string, int) -> bool,
    retryable: int -> bool)

  function PodLabelsOf(p: Pod): map<string, string>
  {
    p.meta.labels
  }

  // ---------------------------------------------------------------------
  // Building the pod of one slot

  /** The replica's template, renamed to GenGeneralName and with the pod
      labels laid over its own labels. */
  function NamedTemplate(policy: Policy, job: Meta, rt: string, index: string, spec: ReplicaSpec, masterRole: bool)
    : (t: PodTemplate)
    ensures t.name == GenGeneralName(job.name, rt, index)
    ensures var own := ReplicaLabels(policy, job.name, rt, index, masterRole);
            t.labels.Keys == spec.template.labels.Keys + own.Keys &&
            (forall k :: k in own ==> t.labels[k] == own[k]) &&
            (forall k :: k in spec.template.labels && k !in own ==> t.labels[k] == spec.template.labels[k])
    ensures t.containers == spec.template.containers && t.restartPolicy == spec.template.restartPolicy
    ensures t.schedulerName == spec.template.schedulerName
  {
    spec.template.(name := GenGeneralName(job.name, rt, index),
                   labels := spec.template.labels + ReplicaLabels(policy, job.name, rt, index, masterRole))
  }

  /** With the XGBoost controllers' IsMasterRole as the hook, slot `index`
      of type rtype gets the job-role=master label exactly when rtype is
      Master: any other type carries job-role only if its own template
      already does. */
  lemma MasterRoleLabelOnlyOnMaster(ctl: PodControl, job: Meta, rtype: string, index: nat, spec: ReplicaSpec,
                                    replicas: map<string, ReplicaSpec>)
    requires forall r, t, i :: ctl.isMasterRole(r, t, i) == IsMasterRole(r, t, i)
    ensures var t := NamedTemplate(ctl.policy, job, ToLower(rtype), Itoa(index), spec,
                                   ctl.isMasterRole(replicas, rtype, index));
            (rtype == MasterType ==> JobRoleLabel in t.labels && t.labels[JobRoleLabel] == "master") &&
            (rtype != MasterType ==> (JobRoleLabel in t.labels <==> JobRoleLabel in spec.template.labels))
  {
  }

  /** setRestartPolicy: the replica's policy, except that ExitCode, which a
      pod cannot carry, becomes Never. */
  function PodRestartPolicy(spec: ReplicaSpec): (r: RestartPolicy)
    ensures r != ExitCode
    ensures spec.restartPolicy != ExitCode ==> r == spec.restartPolicy
  {
    if spec.restartPolicy == ExitCode then Never else spec.restartPolicy
  }

  /** isNonGangSchedulerSet: some replica asks for a scheduler that is
      neither unset nor kube-batch. */
  predicate IsNonGangSchedulerSet(replicas: map<string, ReplicaSpec>)
  {
    exists rt :: rt in replicas && replicas[rt].template.schedulerName != "" &&
                 replicas[rt].template.schedulerName != GangSchedulerName
  }

  /** The last two steps of createNewPod on the template SetClusterSpec
      returned: the restart policy, and the kube-batch scheduler when gang
      scheduling is on and no replica names another scheduler. */
  function FinalTemplate(policy: Policy, t: PodTemplate, spec: ReplicaSpec, replicas: map<string, ReplicaSpec>)
    : (r: PodTemplate)
    ensures r.restartPolicy == PodRestartPolicy(spec)
    ensures r.schedulerName == GangSchedulerName <==>
              (policy.enableGangScheduling && !IsNonGangSchedulerSet(replicas)) || t.schedulerName == GangSchedulerName
    ensures !policy.enableGangScheduling || IsNonGangSchedulerSet(replicas) ==> r.schedulerName == t.schedulerName
    ensures r.name == t.name && r.labels == t.labels && r.containers == t.containers
  {
    var s := if policy.enableGangScheduling && !IsNonGangSchedulerSet(replicas) then GangSchedulerName else t.schedulerName;
    t.(restartPolicy := PodRestartPolicy(spec), schedulerName := s)
  }

  /** The create request createNewPod sends for a slot, if SetClusterSpec
      accepts the template. */
  function PodCreation(ctl: PodControl, job: Meta, rt: string, index: string, spec: ReplicaSpec, masterRole: bool,
                       replicas: map<string, ReplicaSpec>): Result<Request>
  {
    match ctl.setClusterSpec(NamedTemplate(ctl.policy, job, rt, index, spec, masterRole), rt, index)
    case Ok(t) => Ok(CreatePodRequest(job.namespace, FinalTemplate(ctl.policy, t, spec, replicas), None))
    case Err(e) => Err(e)
  }

  /** createNewPod: records one expected creation on the pods key first,
      then builds the pod and sends it; a SetClusterSpec error is returned
      with the expectation recorded and nothing sent, and a create timeout
      counts as success. */
  method CreateNewPod(ctl: PodControl, job: Meta, rt: string, index: string, spec: ReplicaSpec, masterRole: bool,
                      replicas: map<string, ReplicaSpec>, tracker: ExpectationTracker, client: ApiClient)
    returns (err: Option<Error>)
    modifies tracker, client
    ensures tracker.records == old(tracker.records)[PodsKey(JobKey(job), rt) := Record(1, 0)]
    ensures tracker.expired == old(tracker.expired) - {PodsKey(JobKey(job), rt)}
    ensures var c := PodCreation(ctl, job, rt, index, spec, masterRole, replicas);
            (c.Err? ==> err == Some(c.error) && client.requests == old(client.requests)) &&
            (c.Ok? ==> client.requests == old(client.requests) + [c.value] &&
                       err == CreateOutcome(client.reply(|old(client.requests)|)))
  {
    tracker.ExpectCreations(PodsKey(JobKey(job), rt), 1);
    var labels := GenLabels(ctl.policy, job.name);
    labels := labels[ReplicaTypeLabel := rt];
    labels := labels[ReplicaIndexLabel := index];
    if masterRole {
      labels := labels[JobRoleLabel := "master"];
    }
    var template := spec.template;
    template := template.(name := GenGeneralName(job.name, rt, index));
    template := template.(labels := template.labels + labels);
    var withCluster := ctl.setClusterSpec(template, rt, index);
    if withCluster.Err? {
      return Some(withCluster.error);
    }
    template := withCluster.value;
    if spec.restartPolicy == ExitCode {
      template := template.(restartPolicy := Never);
    } else {
      template := template.(restartPolicy := spec.restartPolicy);
    }
    if ctl.policy.enableGangScheduling {
      if !IsNonGangSchedulerSet(replicas) {
        template := template.(schedulerName := GangSchedulerName);
      }
    }
    var reply := client.Send(CreatePodRequest(job.namespace, template, None));
    if reply.Some? && reply.value == Timeout {
      return None;
    }
    err := reply;
  }

  // ---------------------------------------------------------------------
  // Exit codes

  /** Whether a container status is a terminated default-named container. */
  predicate TerminatedAs(s: ContainerStatus, name: string)
  {
    s.name == name && s.terminated.Some?
  }

  /** The exit code of the last terminated container with the given name,
      or the marker 0xbeef when there is none. */
  function ExitCodeOf(statuses: seq<ContainerStatus>, name: string): (r: int)
    ensures (forall i :: 0 <= i < |statuses| ==> !TerminatedAs(statuses[i], name)) ==> r == 0xbeef
    ensures (exists i :: 0 <= i < |statuses| && TerminatedAs(statuses[i], name)) ==>
              exists i :: 0 <= i < |statuses| && TerminatedAs(statuses[i], name) &&
                          r == statuses[i].terminated.value &&
                          forall j :: i < j < |statuses| ==> !TerminatedAs(statuses[j], name)
    decreases |statuses|
  {
    if statuses == [] then 0xbeef
    else
      var last := statuses[|statuses| - 1];
      if TerminatedAs(last, name) then last.terminated.value
      else
        var init := statuses[..|statuses| - 1];
        assert forall i :: 0 <= i < |init| ==> init[i] == statuses[i];
        ExitCodeOf(init, name)
  }

  /** The exit-code scan of ReconcilePods: every matching status overwrites
      the code found so far. */
  method PodExitCode(pod: Pod, name: string) returns (code: int)
    ensures code == ExitCodeOf(pod.containerStatuses, name)
  {
    var statuses := pod.containerStatuses;
    code := 0xbeef;
    var i := 0;
    while i < |statuses|
      invariant 0 <= i <= |statuses|
      invariant code == ExitCodeOf(statuses[..i], name)
    {
      assert statuses[..i + 1][..i] == statuses[..i];
      if TerminatedAs(statuses[i], name) {
        code := statuses[i].terminated.value;
      }
      i := i + 1;
    }
    assert statuses[..i] == statuses;
  }

  // ---------------------------------------------------------------------
  // ReconcilePods

  /** The slots of one replica type: the pods whose replica-type label is
      the lower-case type, bucketed by index. */
  function PodSlots(pods: seq<Pod>, rtype: string, replicas: nat): seq<seq<Pod>>
  {
    Slices(OfType(pods, PodLabelsOf, ToLower(rtype)), PodLabelsOf, replicas)
  }

  /** Whether a slot's single pod is deleted: ExitCode policy, phase
      Failed and a retryable exit code. */
  predicate Restarts(ctl: PodControl, spec: ReplicaSpec, pod: Pod)
  {
    spec.restartPolicy == ExitCode && pod.phase == PodFailed &&
    ctl.retryable(ExitCodeOf(pod.containerStatuses, ctl.policy.defaultContainerName))
  }

  /** Whether SetClusterSpec accepts the pod of slot `index`, so that
      createNewPod gets as far as sending it. */
  predicate PodBuildable(ctl: PodControl, job: Meta, rtype: string, spec: ReplicaSpec,
                         replicas: map<string, ReplicaSpec>, index: nat)
  {
    PodCreation(ctl, job, ToLower(rtype), Itoa(index), spec, ctl.isMasterRole(replicas, rtype, index), replicas).Ok?
  }

  /** Whether the pod of every empty slot among the first k is buildable. */
  predicate EmptySlotsBuildable(ctl: PodControl, job: Meta, rtype: string, spec: ReplicaSpec,
                                replicas: map<string, ReplicaSpec>, slots: seq<seq<Pod>>, k: nat)
    requires k <= |slots|
  {
    forall i :: 0 <= i < k && slots[i] == [] ==> PodBuildable(ctl, job, rtype, spec, replicas, i)
  }

  /** Buildability of the first k+1 slots follows from that of the first
      k slots and of slot k. */
  lemma EmptySlotsBuildableStep(ctl: PodControl, job: Meta, rtype: string, spec: ReplicaSpec,
                                replicas: map<string, ReplicaSpec>, slots: seq<seq<Pod>>, k: nat)
    requires k < |slots|
    requires EmptySlotsBuildable(ctl, job, rtype, spec, replicas, slots, k)
    requires slots[k] == [] ==> PodBuildable(ctl, job, rtype, spec, replicas, k)
    ensures EmptySlotsBuildable(ctl, job, rtype, spec, replicas, slots, k + 1)
  {
  }

  /** The requests one slot leads to when every call succeeds. */
  function SlotRequests(ctl: PodControl, job: Meta, rtype: string, spec: ReplicaSpec,
                        replicas: map<string, ReplicaSpec>, slot: seq<Pod>, index: nat): (r: seq<Request>)
    ensures |r| <= 1
    ensures |slot| > 1 ==> r == []
    ensures |r| == 1 && r[0].CreatePodRequest? ==> slot == []
    ensures |r| == 1 && r[0].DeletePodRequest? ==> |slot| == 1 && Restarts(ctl, spec, slot[0])
    ensures slot == [] && PodBuildable(ctl, job, rtype, spec, replicas, index) ==> |r| == 1 && r[0].CreatePodRequest?
    ensures |slot| == 1 && Restarts(ctl, spec, slot[0]) ==> r == [DeletePodRequest(job.namespace, slot[0].meta.name)]
  {
    if |slot| > 1 then []
    else if |slot| == 0 then
      match PodCreation(ctl, job, ToLower(rtype), Itoa(index), spec, ctl.isMasterRole(replicas, rtype, index), replicas)
      case Ok(req) => [req]
      case Err(_) => []
    else if Restarts(ctl, spec, slot[0]) then [DeletePodRequest(job.namespace, slot[0].meta.name)]
    else []
  }

  /** The requests of the first k slots, in slot order. */
  function PlannedRequests(ctl: PodControl, job: Meta, rtype: string, spec: ReplicaSpec,
                           replicas: map<string, ReplicaSpec>, slots: seq<seq<Pod>>, k: nat): seq<Request>
    requires k <= |slots|
  {
    if k == 0 then []
    else PlannedRequests(ctl, job, rtype, spec, replicas, slots, k - 1) +
         SlotRequests(ctl, job, rtype, spec, replicas, slots[k - 1], k - 1)
  }

  /** The phases of the pods in singly-occupied slots among the first k. */
  function CountedPhases(slots: seq<seq<Pod>>, k: nat): seq<PodPhase>
    requires k <= |slots|
  {
    if k == 0 then []
    else CountedPhases(slots, k - 1) + (if |slots[k - 1]| == 1 then [slots[k - 1][0].phase] else [])
  }

  /** The counters after one slot: only a slot holding exactly one pod
      is counted. */
  function CountSlot(rs: ReplicaStatus, slot: seq<Pod>): ReplicaStatus
  {
    if |slot| == 1 then Observe(rs, slot[0].phase) else rs
  }

  /** One iteration of ReconcilePods: nothing for a slot with several
      pods, a creation for an empty slot, and for a single pod the
      ExitCode restart check followed by counting the pod. `sent` tells
      whether the slot's requests all went out. */
  method ReconcileSlot(ctl: PodControl, job: Meta, status: JobStatus, rtype: string, spec: ReplicaSpec,
                       replicas: map<string, ReplicaSpec>, slot: seq<Pod>, index: nat,
                       tracker: ExpectationTracker, client: ApiClient)
    returns (err: Option<Error>)
    requires status.replicaStatuses.Some? && rtype in status.replicaStatuses.value
    modifies status`replicaStatuses, tracker, client
    ensures client.requests == old(client.requests) + SlotRequests(ctl, job, rtype, spec, replicas, slot, index)
    ensures err.None? && slot == [] ==> PodBuildable(ctl, job, rtype, spec, replicas, index)
    ensures err.None? ==>
              status.replicaStatuses ==
                Some(old(status.replicaStatuses.value)[rtype := CountSlot(old(status.replicaStatuses.value[rtype]), slot)])
    ensures err.Some? ==> status.replicaStatuses == old(status.replicaStatuses)
    ensures slot == [] ==> tracker.records == old(tracker.records)[PodsKey(JobKey(job), ToLower(rtype)) := Record(1, 0)] &&
                           tracker.expired == old(tracker.expired) - {PodsKey(JobKey(job), ToLower(rtype))}
    ensures slot != [] ==> tracker.records == old(tracker.records) && tracker.expired == old(tracker.expired)
  {
    ghost var counters := status.replicaStatuses.value;
    if |slot| > 1 {
      // too many pods for this slot: only a warning
      err := None;
      assert counters[rtype := counters[rtype]] == counters;
    } else if |slot| == 0 {
      var masterRole := ctl.isMasterRole(replicas, rtype, index);
      err := CreateNewPod(ctl, job, ToLower(rtype), Itoa(index), spec, masterRole, replicas, tracker, client);
      assert counters[rtype := counters[rtype]] == counters;
    } else {
      var pod := slot[0];
      var exitCode := PodExitCode(pod, ctl.policy.defaultContainerName);
      if spec.restartPolicy == ExitCode {
        if pod.phase == PodFailed && ctl.retryable(exitCode) {
          // DeletePod addresses the pod in the job's namespace
          err := client.Send(DeletePodRequest(job.namespace, pod.meta.name));
          if err.Some? {
            return;
          }
        }
      }
      UpdateJobReplicaStatuses(status, rtype, pod);
      assert CountSlot(counters[rtype], slot) == Observe(counters[rtype], pod.phase);
      err := None;
    }
  }

  /** The counters after slot k follow from those after the first k slots. */
  lemma CountedStep(slots: seq<seq<Pod>>, k: nat)
    requires k < |slots|
    ensures ObserveAll(Zero, CountedPhases(slots, k + 1)) == CountSlot(ObserveAll(Zero, CountedPhases(slots, k)), slots[k])
  {
    var phases := CountedPhases(slots, k);
    if |slots[k]| == 1 {
      var p := slots[k][0].phase;
      assert CountedPhases(slots, k + 1) == phases + [p];
      assert (phases + [p])[..|phases|] == phases;
    } else {
      assert CountedPhases(slots, k + 1) == phases;
    }
  }

  lemma MapOverwrite<K, V>(m: map<K, V>, k: K, a: V, b: V)
    ensures m[k := a][k := b] == m[k := b]
  {
  }

  /** The loop of ReconcilePods over all slots of one replica type, whose
      counters have just been reset. `done` is the number of slots handled:
      all of them on success, and up to and including the failing slot on
      an error. */
  method ReconcileSlots(ctl: PodControl, job: Meta, status: JobStatus, rtype: string, spec: ReplicaSpec,
                        replicas: map<string, ReplicaSpec>, slots: seq<seq<Pod>>,
                        tracker: ExpectationTracker, client: ApiClient)
    returns (err: Option<Error>, ghost done: nat)
    requires status.replicaStatuses.Some? && rtype in status.replicaStatuses.value
    requires status.replicaStatuses.value[rtype] == Zero
    modifies status`replicaStatuses, tracker, client
    ensures done <= |slots|
    ensures client.requests == old(client.requests) + PlannedRequests(ctl, job, rtype, spec, replicas, slots, done)
    ensures tracker.records == RecordsAfter(old(tracker.records), PodsKey(JobKey(job), ToLower(rtype)), slots, done)
    ensures tracker.expired == ExpiredAfter(old(tracker.expired), PodsKey(JobKey(job), ToLower(rtype)), slots, done)
    ensures err.None? ==> done == |slots| && EmptySlotsBuildable(ctl, job, rtype, spec, replicas, slots, |slots|)
    ensures err.None? ==>
              status.replicaStatuses ==
                Some(old(status.replicaStatuses.value)[rtype := ObserveAll(Zero, CountedPhases(slots, |slots|))])
    ensures err.Some? ==>
              0 < done &&
              status.replicaStatuses ==
                Some(old(status.replicaStatuses.value)[rtype := ObserveAll(Zero, CountedPhases(slots, done - 1))])
  {
    ghost var key := PodsKey(JobKey(job), ToLower(rtype));
    ghost var counters := status.replicaStatuses.value;
    assert counters == counters[rtype := ObserveAll(Zero, CountedPhases(slots, 0))];
    var index := 0;
    done := 0;
    while index < |slots|
      invariant 0 <= index <= |slots| && done == index
      invariant client.requests == old(client.requests) + PlannedRequests(ctl, job, rtype, spec, replicas, slots, index)
      invariant status.replicaStatuses == Some(counters[rtype := ObserveAll(Zero, CountedPhases(slots, index))])
      invariant tracker.records == RecordsAfter(old(tracker.records), key, slots, index)
      invariant tracker.expired == ExpiredAfter(old(tracker.expired), key, slots, index)
      invariant EmptySlotsBuildable(ctl, job, rtype, spec, replicas, slots, index)
    {
      ConcatAssoc(old(client.requests), PlannedRequests(ctl, job, rtype, spec, replicas, slots, index),
                  SlotRequests(ctl, job, rtype, spec, replicas, slots[index], index));
      RecordsStep(old(tracker.records), old(tracker.expired), key, slots, index);
      err := ReconcileSlot(ctl, job, status, rtype, spec, replicas, slots[index], index, tracker, client);
      done := index + 1;
      if err.Some? {
        return;
      }
      EmptySlotsBuildableStep(ctl, job, rtype, spec, replicas, slots, index);
      CountedStep(slots, index);
      MapOverwrite(counters, rtype, ObserveAll(Zero, CountedPhases(slots, index)),
                   ObserveAll(Zero, CountedPhases(slots, index + 1)));
      index := index + 1;
    }
    err := None;
  }

  /** ReconcilePods for one replica type. The slots are the pods of the
      type bucketed by index. The requests sent are the planned requests of
      the first `done` slots, which on success are all of them; on success
      every empty slot's pod was buildable, so PlannedPodRequests counts
      one creation per empty slot, and the rtype counters count exactly the
      pods of singly-occupied slots. The pods key awaits one creation iff
      an empty slot was reached. A selector error comes first and changes
      nothing; it is the only error with no slot handled. */
  method ReconcilePods(ctl: PodControl, job: Meta, status: JobStatus, pods: seq<Pod>, rtype: string,
                       spec: ReplicaSpec, replicas: map<string, ReplicaSpec>,
                       tracker: ExpectationTracker, client: ApiClient)
    returns (err: Option<Error>, ghost slots: seq<seq<Pod>>, ghost done: nat)
    requires spec.replicas.Some? && spec.replicas.value >= 0
    modifies status`replicaStatuses, tracker, client
    ensures slots == PodSlots(pods, rtype, spec.replicas.value)
    ensures done <= |slots|
    ensures client.requests == old(client.requests) + PlannedRequests(ctl, job, rtype, spec, replicas, slots, done)
    ensures tracker.records == RecordsAfter(old(tracker.records), PodsKey(JobKey(job), ToLower(rtype)), slots, done)
    ensures tracker.expired == ExpiredAfter(old(tracker.expired), PodsKey(JobKey(job), ToLower(rtype)), slots, done)
    ensures err.None? ==> done == |slots| && EmptySlotsBuildable(ctl, job, rtype, spec, replicas, slots, |slots|)
    ensures err.None? ==>
              status.replicaStatuses ==
                Some(CountersOf(old(status.replicaStatuses))[rtype := ObserveAll(Zero, CountedPhases(slots, |slots|))])
    ensures err.Some? && done == 0 <==> SelectorFails(pods, ToLower(rtype))
    ensures err.Some? && done == 0 ==> status.replicaStatuses == old(status.replicaStatuses)
    ensures err.Some? && done > 0 ==>
              status.replicaStatuses ==
                Some(CountersOf(old(status.replicaStatuses))[rtype := ObserveAll(Zero, CountedPhases(slots, done - 1))])
  {
    var rt := ToLower(rtype);
    slots := PodSlots(pods, rtype, spec.replicas.value);
    var filtered := FilterForReplicaType(pods, PodLabelsOf, rt);
    if filtered.Err? {
      return Some(filtered.error), slots, 0;
    }
    var ofType := filtered.value;
    InitializeReplicaStatuses(status, rtype);
    var podSlices := GetSlices(ofType, PodLabelsOf, spec.replicas.value);
    err, done := ReconcileSlots(ctl, job, status, rtype, spec, replicas, podSlices, tracker, client);
    MapOverwrite(CountersOf(old(status.replicaStatuses)), rtype, Zero,
                 ObserveAll(Zero, CountedPhases(slots, if err.None? then |slots| else done - 1)));
  }

  // ---------------------------------------------------------------------
  // What ReconcilePods sends

  /** The number of pod creations among some requests. */
  function CreateCount(reqs: seq<Request>): nat
  {
    if reqs == [] then 0
    else CreateCount(reqs[..|reqs| - 1]) + (if reqs[|reqs| - 1].CreatePodRequest? then 1 else 0)
  }

  /** The pod deletions among some requests, in order. */
  function Deletions(reqs: seq<Request>): seq<Request>
  {
    if reqs == [] then []
    else Deletions(reqs[..|reqs| - 1]) + (if reqs[|reqs| - 1].DeletePodRequest? then [reqs[|reqs| - 1]] else [])
  }

  /** The deletions the ExitCode policy calls for among the first k slots:
      one per lone pod that restarts, addressed in the job's namespace. */
  function RestartDeletes(ctl: PodControl, job: Meta, spec: ReplicaSpec, slots: seq<seq<Pod>>, k: nat): seq<Request>
    requires k <= |slots|
  {
    if k == 0 then []
    else RestartDeletes(ctl, job, spec, slots, k - 1) +
         (if |slots[k - 1]| == 1 && Restarts(ctl, spec, slots[k - 1][0])
          then [DeletePodRequest(job.namespace, slots[k - 1][0].meta.name)] else [])
  }

  /** Counting creations and collecting deletions distribute over
      appending at most one request. */
  lemma CountsAppend(a: seq<Request>, b: seq<Request>)
    requires |b| <= 1
    ensures CreateCount(a + b) == CreateCount(a) + CreateCount(b)
    ensures Deletions(a + b) == Deletions(a) + Deletions(b)
  {
    if b == [] {
      assert a + b == a;
    } else {
      assert (a + b)[..|a|] == a;
      assert b[..0] == [];
    }
  }

  /** One slot's requests: a creation for an empty slot whose pod can be
      built, the restart deletion for a lone pod that restarts, and
      nothing else. */
  lemma SlotRequestsCounts(ctl: PodControl, job: Meta, rtype: string, spec: ReplicaSpec,
                           replicas: map<string, ReplicaSpec>, slot: seq<Pod>, index: nat)
    requires slot == [] ==> PodBuildable(ctl, job, rtype, spec, replicas, index)
    ensures var r := SlotRequests(ctl, job, rtype, spec, replicas, slot, index);
            CreateCount(r) == (if slot == [] then 1 else 0) &&
            Deletions(r) == (if |slot| == 1 && Restarts(ctl, spec, slot[0])
                             then [DeletePodRequest(job.namespace, slot[0].meta.name)] else []) &&
            |r| == CreateCount(r) + |Deletions(r)|
  {
    var r := SlotRequests(ctl, job, rtype, spec, replicas, slot, index);
    if r != [] {
      assert r[..0] == [];
    }
  }

  /** When every empty slot's pod can be built, ReconcilePods sends exactly
      one creation per empty slot and deletes exactly the lone pods that
      restart, and nothing else. */
  lemma {:induction false} PlannedPodRequests(ctl: PodControl, job: Meta, rtype: string, spec: ReplicaSpec,
                                              replicas: map<string, ReplicaSpec>, slots: seq<seq<Pod>>, k: nat)
    requires k <= |slots|
    requires EmptySlotsBuildable(ctl, job, rtype, spec, replicas, slots, k)
    ensures CreateCount(PlannedRequests(ctl, job, rtype, spec, replicas, slots, k)) == EmptyCount(slots, k)
    ensures Deletions(PlannedRequests(ctl, job, rtype, spec, replicas, slots, k)) == RestartDeletes(ctl, job, spec, slots, k)
    ensures |PlannedRequests(ctl, job, rtype, spec, replicas, slots, k)| ==
            EmptyCount(slots, k) + |RestartDeletes(ctl, job, spec, slots, k)|
  {
    if k > 0 {
      PlannedPodRequests(ctl, job, rtype, spec, replicas, slots, k - 1);
      var before := PlannedRequests(ctl, job, rtype, spec, replicas, slots, k - 1);
      var step := SlotRequests(ctl, job, rtype, spec, replicas, slots[k - 1], k - 1);
      SlotRequestsCounts(ctl, job, rtype, spec, replicas, slots[k - 1], k - 1);
      CountsAppend(before, step);
    }
  }
}
