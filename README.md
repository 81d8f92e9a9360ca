# XGBoostJob operator reconciliation core, in Dafny

This project models the part of the XGBoost operator that decides what the
cluster should look like for an `XGBoostJob`, and proves properties of it.

- **Job conditions.** The generic kubeflow job controller keeps a list of
  conditions. `setCondition` and `filterOutCondition` add and replace them,
  and Running and Restarting exclude each other. Failed is absorbing, and a
  terminal condition demotes Running to False.
- **Replica counters.** Each replica type has Active, Succeeded and Failed
  counters, filled from the observed pod phases.
- **Reconciliation of pods and services.** Pods and services are selected by
  their replica-type label and bucketed into one slot per replica index by
  their index label.
  - An empty slot gets a create request, registered first as an expected
    creation.
  - Under the ExitCode policy, a failed pod with a retryable exit code is
    deleted.
  - Only slots that hold exactly one pod are counted.
- **Gang-scheduling objects.** SyncPodGroup, DeletePodGroup and SyncPdb work
  against an abstract store.
- **The XGBoostJob API and defaulting.**
  - Validation of the v1alpha1 spec.
  - Defaulting: camel-casing of the replica type keys, default replicas, the
    restart policy, the default port and the clean-pod policy.
  - The v1alpha1 cluster-spec environment: MASTER_PORT, MASTER_ADDR,
    WORLD_SIZE, RANK and PYTHONUNBUFFERED.
- **The controller-runtime reconciler** (`pkg/controller/xgboostjob`):
  - the expectations gate, an OR over the replica types;
  - the dependent create and delete callbacks;
  - `UpdateJobStatus`, with its per-type condition rules;
  - `onOwnerCreateFunc`;
  - `Reconcile`, with its status write-back;
  - `computeTotalReplicas`, a wrapping int32 sum;
  - the no-op work queue.
- **The v1alpha1 controller:**
  - the expectations gate;
  - `syncXGBoostJob`, with its key validation;
  - the outcomes of `processNextWorkItem` on a rate-limited queue;
  - the backoff and deadline decision;
  - the terminal branch that retires Active replicas into Succeeded.

State that the Go code changes in place becomes Dafny classes:

- `Status.JobStatus`;
- `Jobs.XGBoostJob`;
- `Tracker.ExpectationTracker`, for the expectation cache;
- `Client.ApiClient`, which records every request and whose k-th request
  gets the reply `reply(k)`;
- `JobController.GangStore`;
- `AlphaController.WorkQueue`.

Their methods state their whole new state. Pure decisions are functions with
lemmas about them.

The parts of the code are represented as follows:

- **Go map ranges.** Where the order is observable, a range over a Go map is
  an `order` sequence that lists every key once (`Util.Enumerates`).
  Elsewhere it is a loop that picks keys nondeterministically.
- **Time.** The clock is a `now` parameter.
- **Answers of code outside the model.** These are parameters:
  - the answer of `ReconcileJobs`;
  - `pastBackoffLimit` and `pastActiveDeadline`;
  - the job informer;
  - the retryable-exit-code rule;
  - a controller's `SetClusterSpec` hook.

## Model

| member | source | states |
|---|---|---|
| Common.ReplaceSlashes | vendor/github.com/kubeflow/common/job_controller/job_controller.go:41-49 | the result has the input's length, contains no '/', and keeps every character that is not a slash |
| Common.ToLower | vendor/github.com/kubeflow/common/job_controller/pod.go:296 | the result has the input's length, holds no upper-case ASCII letter and keeps every other character (ASCII only; see "## Left out") |
| Common.EqualFold | pkg/apis/xgboost/v1alpha1/defaults.go:79 | no ensures: equality after ToLower; Defaults.CanonicalNamesDiffer and Defaults.SetTypeNameToCamelCase state what it decides |
| Common.Itoa | vendor/github.com/kubeflow/common/job_controller/service.go:158 | no ensures: "-" and the digits for a negative value, the digits otherwise; Common.AtoiItoa proves that Atoi reads it back |
| Common.ParseDigits | vendor/github.com/kubeflow/common/job_controller/pod.go:261 | no ensures: the decimal value of a digit string; Common.ParseDigitsOfDigits proves it inverts Digits |
| Common.Digits | vendor/github.com/kubeflow/common/job_controller/service.go:153-158 | strconv.Itoa of a natural is a non-empty string of decimal digits |
| Common.Atoi | vendor/github.com/kubeflow/common/job_controller/pod.go:261-265 | strconv.Atoi succeeds only with a value inside int64 and fails on the empty string |
| Common.ParseDigitsOfDigits | vendor/github.com/kubeflow/common/job_controller/service.go:153-158 | parsing the digits Itoa prints gives the number back |
| Common.AtoiItoa | vendor/github.com/kubeflow/common/job_controller/pod.go:261-269 | round trip: an index printed with Itoa (as ReconcileServices and ReconcilePods name slots) parses back to the same int64 |
| Api.IsMasterRole | pkg/controller/xgboostjob/xgboostjob_controller.go:258-261 | true iff the replica type is "Master", whatever the index and the replica map |
| Ports.PortInFirst | vendor/github.com/kubeflow/common/job_controller/service.go:172-177 | the port search finds nothing iff no port has the name, and otherwise returns the first port with that name |
| Ports.FindPortFirst | vendor/github.com/kubeflow/common/job_controller/service.go:168-181 | the search over containers fails iff no default-named container has the named port; otherwise its value is the first such port in container order |
| Client.ApiClient.constructor | vendor/github.com/kubeflow/common/job_controller/pod.go:422 | a fresh client has sent nothing and answers with the given reply function |
| Client.ApiClient.Send | vendor/github.com/kubeflow/common/job_controller/pod.go:422 | the request is appended to the request log and its answer is the reply for its position |
| Client.CreateOutcome | vendor/github.com/kubeflow/common/job_controller/pod.go:422-435 | a create succeeds iff the API answered nothing or a Timeout; any other error is returned unchanged |
| Jobs.XGBoostJob.constructor | pkg/apis/xgboostjobs/v1alpha1/xgboostjob_types.go:46-52 | a job object holds exactly the given metadata, replica specs, run policy, status and deletion flag |
| Status.JobStatus.constructor | pkg/apis/xgboostjobs/v1alpha1/xgboostjob_types.go:36-39 | a status object holds exactly the given conditions, counters and times |
| Status.UpdateJobConditions | vendor/github.com/kubeflow/common/util/status.go:40-44 | always returns no error, and the conditions become setCondition of the new True condition |
| Status.InitializeReplicaStatuses | vendor/github.com/kubeflow/common/job_controller/status.go:9-15 | a nil counter map is created; the rtype entry becomes all zeros and every other entry is kept |
| Status.Observe | vendor/github.com/kubeflow/common/job_controller/status.go:18-27 | no counter decreases; Active grows iff Running, Succeeded iff Succeeded, Failed iff Failed; the total grows by one except for Pending and Unknown, which change nothing |
| Status.UpdateJobReplicaStatuses | vendor/github.com/kubeflow/common/job_controller/status.go:18-27 | only the rtype entry changes, and it becomes the observation of the pod's phase |
| Status.CountPhase | vendor/github.com/kubeflow/common/job_controller/pod.go:322-344 | the count of a phase is at most the number of pods |
| Status.ObserveAllCounts | vendor/github.com/kubeflow/common/job_controller/pod.go:322-344 | observing pods from zero gives exactly the numbers of Running, Succeeded and Failed phases; the total never exceeds the number of pods |
| Tracker.ExpectationTracker.constructor | vendor/github.com/kubeflow/common/job_controller/pod.go:367-371 | a fresh tracker has no expectations and nothing expired |
| Tracker.ExpectationTracker.ExpectCreations | vendor/github.com/kubeflow/common/job_controller/pod.go:367-371 | the key's record is reset to n expected additions and no deletions, and the key is no longer expired; other keys are unchanged |
| Tracker.ExpectationTracker.CreationObserved | pkg/controller/xgboostjob/expectation.go:59-60 | a recorded key has one fewer pending addition; an unknown key changes nothing |
| Tracker.ExpectationTracker.DeletionObserved | pkg/controller/xgboostjob/expectation.go:77-78 | a recorded key has one fewer pending deletion; an unknown key changes nothing |
| Tracker.ExpectationTracker.Satisfied | pkg/controller/xgboostjob/expectation.go:38 | no ensures: a key is satisfied iff it has no record, nothing is awaited, or it has expired; Expectations.SatisfiedExpectations builds the gate on it |
| Tracker.PodsAndServicesKeysDiffer | pkg/controller/xgboostjob/expectation.go:37-42 | a pods key never equals a services key, so the two expectations of a type are separate |
| Tracker.PodsKey | vendor/github.com/kubeflow/common/job_controller/pod.go:367 | no ensures: "<job key>/<lower-case type>/pods"; Tracker.PodsAndServicesKeysDiffer and Expectations.PodsKeyInjective state it |
| Tracker.ServicesKey | vendor/github.com/kubeflow/common/job_controller/service.go:194 | no ensures: "<job key>/<lower-case type>/services"; Tracker.PodsAndServicesKeysDiffer keeps it apart from every pods key |
| Tracker.RecordsStep | vendor/github.com/kubeflow/common/job_controller/pod.go:310-320 | each empty slot resets the type's expectation to one creation and renews the key, so it is no longer expired; a non-empty slot leaves both as they are |
| Conditions.HasCondition | vendor/github.com/kubeflow/common/util/status.go:46-53 | true iff some condition has the type and status True |
| Conditions.GetCondition | vendor/github.com/kubeflow/common/util/status.go:68-75 | None iff no condition has the type; otherwise the first condition of that type |
| Conditions.NewCondition | vendor/github.com/kubeflow/common/util/status.go:56-65 | a True condition of the type with the reason and message, both times set to now |
| Conditions.FilterOutAppend | vendor/github.com/kubeflow/common/util/status.go:104-126 | filtering distributes over concatenation |
| Conditions.FilterOutMembers | vendor/github.com/kubeflow/common/util/status.go:104-126 | the result is no longer than the input and holds exactly the kept conditions (Running demoted to False when the new type is Failed or Succeeded), none other |
| Conditions.FilterOutNoDropped | vendor/github.com/kubeflow/common/util/status.go:107-116 | after filtering, no condition has the new type, and Running and Restarting exclude each other |
| Conditions.SetCondition | vendor/github.com/kubeflow/common/util/status.go:80-101 | a Failed list is left unchanged, as is an update with the same status and reason; otherwise the stamped condition is last and no earlier element has a type it drops |
| Conditions.StampedInherits | vendor/github.com/kubeflow/common/util/status.go:93-96 | the appended condition is the new one, except that with the same status and another reason it keeps the old LastTransitionTime |
| Conditions.SetConditionReplaces | vendor/github.com/kubeflow/common/util/status.go:98-116 | the new condition is last and no other element has its type; adding Running removes every Restarting and adding Restarting removes every Running |
| Conditions.SetTerminalDemotesRunning | vendor/github.com/kubeflow/common/util/status.go:103-125 | adding Failed or Succeeded keeps every Running condition with status False and every other condition of another type; every earlier element comes from the old list |
| Conditions.FailedIsAbsorbing | vendor/github.com/kubeflow/common/util/status.go:80-84 | once the job is Failed, any sequence of updates leaves the conditions unchanged |
| Conditions.SetConditionEstablishes | vendor/github.com/kubeflow/common/util/status.go:80-101 | on a job that is not Failed, setting a True condition makes it present |
| Conditions.FilterOutKeepsDistinct | vendor/github.com/kubeflow/common/util/status.go:104-126 | filtering keeps condition types distinct |
| Conditions.SetConditionPreservesWellFormed | vendor/github.com/kubeflow/common/util/status.go:80-126 | updates keep the list free of duplicate types and never hold both Running and Restarting |
| Conditions.SetConditionKeeps | vendor/github.com/kubeflow/common/util/status.go:103-125 | a True condition survives an update that neither drops its type nor demotes it (Running under Failed or Succeeded) |
| Conditions.SetConditionNoNewTrue | vendor/github.com/kubeflow/common/util/status.go:80-126 | an update never makes a True condition of another type appear |
| Conditions.IsSucceeded | vendor/github.com/kubeflow/common/util/status.go:30-32 | no ensures: HasCondition(_, JobSucceeded), so true iff some Succeeded condition is True |
| Conditions.IsFailed | vendor/github.com/kubeflow/common/util/status.go:35-37 | no ensures: HasCondition(_, JobFailed), so true iff some Failed condition is True; Conditions.FailedIsAbsorbing proves it stays true |
| Conditions.FilterOutCondition | vendor/github.com/kubeflow/common/util/status.go:104-126 | no ensures: Conditions.FilterOutMembers, FilterOutNoDropped, FilterOutAppend and FilterOutKeepsDistinct state its result |
| Slots.IndexOf | vendor/github.com/kubeflow/common/job_controller/pod.go:257-265 | a missing index label gives no index |
| Slots.OfType | vendor/github.com/kubeflow/common/job_controller/pod.go:231-251 | selection never lengthens the list |
| Slots.OfTypeMembers | vendor/github.com/kubeflow/common/job_controller/pod.go:240-249 | an object is selected iff it is in the list and its replica-type label equals the type |
| Slots.OfTypeAppend | vendor/github.com/kubeflow/common/job_controller/pod.go:240-249 | selection distributes over concatenation, so the original order is kept |
| Slots.IsLabelValue | vendor/github.com/kubeflow/common/job_controller/pod.go:240-244 | no ensures: the label-value syntax LabelSelectorAsSelector checks (empty, or at most 63 letters, digits, '-', '_' and '.' with a letter or digit at each end); FilterForReplicaType, ReconcilePods and ReconcileServices state its error path |
| Slots.FilterForReplicaType | vendor/github.com/kubeflow/common/job_controller/pod.go:230-251 | fails iff some object is listed and rt is not a Kubernetes label value (the selector is built per object); otherwise exactly the selection OfType specifies (shared by FilterPodsForReplicaType and FilterServicesForReplicaType) |
| Slots.Bucket | vendor/github.com/kubeflow/common/job_controller/pod.go:254-273 | a bucket never lengthens the list |
| Slots.BucketMembers | vendor/github.com/kubeflow/common/job_controller/pod.go:256-270 | an object is in bucket i iff it is in the list and its index label parses to i |
| Slots.Slices | vendor/github.com/kubeflow/common/job_controller/pod.go:254-255 | there are exactly `replicas` buckets |
| Slots.SlicesIndex | vendor/github.com/kubeflow/common/job_controller/pod.go:266-270 | bucket i holds the objects whose index is i, in list order |
| Slots.SlotsPlaceExactly | vendor/github.com/kubeflow/common/job_controller/pod.go:257-270 | an object lands in some bucket iff its index label parses to a value in [0, replicas); missing, unparsable and out-of-range indices are dropped |
| Slots.SlotsGrow | vendor/github.com/kubeflow/common/job_controller/pod.go:269 | adding an object of the type with index i appends it to bucket i and changes no other bucket |
| Slots.GetSlices | vendor/github.com/kubeflow/common/job_controller/service.go:112-131 | the bucketing loop returns exactly the buckets Slices specifies (shared by GetPodSlices and GetServiceSlices) |
| Slots.EmptyCount | vendor/github.com/kubeflow/common/job_controller/service.go:153-163 | the number of empty slots is at most the slots looked at, and zero iff none is empty |
| JobController.GenGeneralName | vendor/github.com/kubeflow/common/job_controller/pod.go:386 | the pod and service name has no '/' and has the joined length of job, type and index plus two dashes |
| JobController.JobKey | vendor/github.com/kubeflow/common/job_controller/pod.go:362 | no ensures: "namespace/name", or the name alone for an empty namespace; AlphaController.SplitJobKey proves it splits back |
| JobController.GenOwnerReference | vendor/github.com/kubeflow/common/job_controller/job_controller.go:27-39 | name and UID come from the object, kind and API version from the controller, and Controller and BlockOwnerDeletion are true |
| JobController.GenLabels | vendor/github.com/kubeflow/common/job_controller/job_controller.go:41-49 | exactly two keys: group-name with the controller's value, and job-name with the job name's slashes turned into dashes |
| JobController.ReplicaLabels | vendor/github.com/kubeflow/common/job_controller/pod.go:375-381 | GenLabels plus replica-type and replica-index, plus job-role=master iff masterRole, and no other key |
| JobController.JobNameLabelIsName | vendor/github.com/kubeflow/common/job_controller/job_controller.go:41-49 | a job name without slashes is its own job-name label |
| JobController.ResolveControllerRef | vendor/github.com/kubeflow/common/job_controller/job_controller.go:149-165 | nil for another kind; otherwise the cached job iff it exists and its UID matches the reference |
| JobController.OwnerReferenceResolves | vendor/github.com/kubeflow/common/job_controller/job_controller.go:27-39 | the owner reference built for a cached job resolves back to that job |
| JobController.NewPodGroup | vendor/github.com/kubeflow/common/job_controller/job_controller.go:61-73 | a PodGroup named after the job, with MinMember as given and the job as its one owner |
| JobController.NewPdb | vendor/github.com/kubeflow/common/job_controller/job_controller.go:89-105 | a PDB named after the job, with MinAvailable as given, the job as its one owner and a job-name selector |
| JobController.GangStore.constructor | vendor/github.com/kubeflow/common/job_controller/job_controller.go:51-58 | the store holds exactly the given PodGroups and PDBs, and its separate read and write failure modes |
| JobController.GangStore.GetPodGroup | vendor/github.com/kubeflow/common/job_controller/job_controller.go:55-58 | a stored group is returned; a missing one is NotFound; a failing read errs with another error |
| JobController.GangStore.GetPdb | vendor/github.com/kubeflow/common/job_controller/job_controller.go:81-87 | a stored PDB is returned; a missing one is NotFound; a failing read errs with another error |
| JobController.GangStore.CreatePodGroup | vendor/github.com/kubeflow/common/job_controller/job_controller.go:73 | a new group is stored under its name; an existing one or a failing write errs and changes nothing |
| JobController.GangStore.DeletePodGroupObject | vendor/github.com/kubeflow/common/job_controller/job_controller.go:119-126 | a stored group is removed; a missing one or a failing write errs and changes nothing |
| JobController.GangStore.CreatePdb | vendor/github.com/kubeflow/common/job_controller/job_controller.go:107 | a new PDB is stored under its name; an existing one or a failing write errs and changes nothing |
| JobController.SyncPodGroup | vendor/github.com/kubeflow/common/job_controller/job_controller.go:51-74 | an existing group that is read is returned and nothing is created; after any lookup error, NotFound or a failing read, the missing group NewPodGroup is created when writes work; otherwise it errs and changes nothing |
| JobController.DeletePodGroup | vendor/github.com/kubeflow/common/job_controller/job_controller.go:110-127 | a group read as missing is not an error; after any other lookup outcome the group is deleted, and a failing write, or a failing read of a missing group, errs with nothing changed |
| JobController.SyncPdb | vendor/github.com/kubeflow/common/job_controller/job_controller.go:77-108 | an existing PDB is returned with the plain error PdbExists ("AlreadyExists") and nothing is created; only a NotFound lookup leads to creating NewPdb, which is returned on success; a failing read is returned as its own error and creates nothing, even when writes work |
| Pods.NamedTemplate | vendor/github.com/kubeflow/common/job_controller/pod.go:375-394 | named GenGeneralName(job, rt, index); its labels are the template's overridden by the replica labels; containers, restart policy and scheduler copied |
| Pods.MasterRoleLabelOnlyOnMaster | vendor/github.com/kubeflow/common/job_controller/pod.go:316-380 | with IsMasterRole as the controller's hook, a slot's template gets job-role=master when the type is Master, and any other type carries job-role only if its own template does |
| Pods.PodRestartPolicy | vendor/github.com/kubeflow/common/job_controller/pod.go:438-445 | ExitCode becomes Never and any other policy is copied |
| Pods.FinalTemplate | vendor/github.com/kubeflow/common/job_controller/pod.go:402-420 | the restart policy is set from the replica spec; the scheduler becomes kube-batch iff gang scheduling is on and no spec names another scheduler (or it already was); otherwise unchanged |
| Pods.IsNonGangSchedulerSet | vendor/github.com/kubeflow/common/job_controller/pod.go:447-454 | no ensures: true iff some replica names a scheduler that is neither empty nor kube-batch; Pods.FinalTemplate states its effect |
| Pods.CreateNewPod | vendor/github.com/kubeflow/common/job_controller/pod.go:351-436 | one expected creation is registered on the pods key first; a SetClusterSpec error is returned with nothing sent; otherwise exactly one create is sent and a Timeout counts as success |
| Pods.ExitCodeOf | vendor/github.com/kubeflow/common/job_controller/pod.go:325-333 | the exit code of the last terminated default-named container, or 0xbeef when there is none |
| Pods.PodExitCode | vendor/github.com/kubeflow/common/job_controller/pod.go:325-333 | the scanning loop returns exactly ExitCodeOf |
| Pods.SlotRequests | vendor/github.com/kubeflow/common/job_controller/pod.go:310-342 | at most one request per slot: a creation exactly for an empty slot whose pod SetClusterSpec accepts, the deletion of a lone pod that must restart, addressed in the job's namespace as DeletePod does, and nothing for crowded slots |
| Pods.ReconcileSlot | vendor/github.com/kubeflow/common/job_controller/pod.go:310-344 | sends the slot's planned requests; success on an empty slot means its pod was buildable; on success the lone pod is counted into the rtype counters, and on an error they are unchanged; an empty slot resets the type's expectation to one creation and un-expires it, and any other slot leaves the tracker alone |
| Pods.CountedStep | vendor/github.com/kubeflow/common/job_controller/pod.go:322-344 | counting slot by slot equals counting the phases of the singly-occupied slots |
| Pods.ReconcileSlots | vendor/github.com/kubeflow/common/job_controller/pod.go:309-345 | the requests sent and the expectations (records and expiry) are those of the slots handled, up to and including a failing slot; on success every slot is handled, every empty slot's pod was buildable and the counters are the observation of the lone pods; on an error the counters cover the slots before the failing one |
| Pods.ReconcilePods | vendor/github.com/kubeflow/common/job_controller/pod.go:277-348 | a selector error (SelectorFails: some pod listed and the lower-case type no label value) is returned with counters, expectations and requests untouched, and is the only error with no slot handled; otherwise the slots are the buckets of the type's pods; the counters are reset and then count only singly-occupied slots; the requests and the expectations are those of the slots handled; on success every empty slot's pod was buildable, so by PlannedPodRequests exactly one creation per empty slot and one deletion per restartable lone pod were sent |
| Pods.EmptySlotsBuildableStep | vendor/github.com/kubeflow/common/job_controller/pod.go:312-320 | a loop that got past slot k without an error has built the pod of every empty slot up to k |
| Pods.CountsAppend | vendor/github.com/kubeflow/common/job_controller/pod.go:309-345 | the creation count and the deletions of the requests sent grow slot by slot |
| Pods.SlotRequestsCounts | vendor/github.com/kubeflow/common/job_controller/pod.go:310-342 | one slot sends a creation iff it is empty (its pod being buildable), the restart deletion iff it holds a lone pod that restarts, and nothing else |
| Pods.PlannedPodRequests | vendor/github.com/kubeflow/common/job_controller/pod.go:309-345 | when every empty slot's pod can be built, ReconcilePods sends exactly one creation per empty slot, deletes exactly the lone pods that restart, in slot order and in the job's namespace, and sends nothing else |
| Services.GetPortFromJob | vendor/github.com/kubeflow/common/job_controller/service.go:168-181 | errs iff no default-named container has the port name the controller gives; otherwise the first such port |
| Services.NewService | vendor/github.com/kubeflow/common/job_controller/service.go:200-224 | headless (ClusterIP None), selector equal to its labels (the replica labels without job-role), one port named by the controller's port name, named GenGeneralName |
| Services.WithOwner | vendor/github.com/kubeflow/common/job_controller/service.go:255-256 | the service gets the namespace and the one owner reference, and everything else is kept |
| Services.WrapCreateError | vendor/github.com/kubeflow/common/job_controller/service.go:262-266 | every API error, Timeout included, becomes a wrapped error that is no longer a Timeout |
| Services.CreateServices | vendor/github.com/kubeflow/common/job_controller/service.go:251-277 | a service without labels is rejected with nothing sent; otherwise exactly one create with the owner is sent and its error is wrapped |
| Services.ServiceOutcome | vendor/github.com/kubeflow/common/job_controller/service.go:228-241 | as written: CreateNewService errs iff the API answered any error |
| Services.IntendedServiceOutcome | vendor/github.com/kubeflow/common/job_controller/service.go:229-237 | as intended: a Timeout counts as success and any other error is returned |
| Services.ServiceTimeoutReported | vendor/github.com/kubeflow/common/job_controller/service.go:228-241 | the written and the intended outcome differ exactly on a Timeout answer |
| Services.CreateNewService | vendor/github.com/kubeflow/common/job_controller/service.go:184-242 | one expected creation is registered on the services key before the port lookup; a missing port errs with nothing sent; otherwise one create of NewService is sent |
| Services.PlannedServicesAreCreations | vendor/github.com/kubeflow/common/job_controller/service.go:153-164 | reconciling services only ever creates, one per empty slot, and nothing when the port is missing |
| Services.ReconcileServiceSlot | vendor/github.com/kubeflow/common/job_controller/service.go:153-161 | an empty slot records one expected creation on the services key and sends the slot's planned request; success there means the port was found; a full or crowded slot sends nothing, changes no expectation and never errs |
| Services.ReconcileServiceSlots | vendor/github.com/kubeflow/common/job_controller/service.go:153-164 | the requests sent and the expectations (records and expiry) are those of the slots handled, up to and including a failing slot; on success every slot is handled, and the port was found or no slot was empty |
| Services.ReconcileServices | vendor/github.com/kubeflow/common/job_controller/service.go:135-165 | a selector error (SelectorFails) is returned with expectations and requests untouched, and is the only error with no slot handled; otherwise slots are the buckets of the type's services; the requests and expectations are those of the slots handled; success means the port was found or no slot was empty, so by PlannedServicesAreCreations exactly one creation per empty slot, none for full or crowded slots, never a deletion |
| Services.CreatedServiceFillsItsSlot | vendor/github.com/kubeflow/common/job_controller/service.go:156-158 | the service created for slot i lands in slot i on the next bucketing and changes no other slot |
| Validation.CheckEntry | pkg/apis/xgboost/validation/validation.go:28-69 | an entry passes iff the spec is present with containers, its type is Master or Worker, every image is set, a default-named container exists and a Master has nil or 1 replicas; a bad type is the type error |
| Validation.CheckEntries | pkg/apis/xgboost/validation/validation.go:28-69 | no ensures: the first failing entry's error in range order; Validation.CheckEntriesAll proves it passes iff every entry passes |
| Validation.CheckEntriesAll | pkg/apis/xgboost/validation/validation.go:28-71 | the loop passes iff every entry passes, whatever the order |
| Validation.ValidateSpec | pkg/apis/xgboost/validation/validation.go:24-26 | a nil replica map is rejected |
| Validation.ValidateSpecAccepts | pkg/apis/xgboost/validation/validation.go:23-78 | the spec is accepted iff the map is present, a Master entry exists and every entry passes |
| Validation.BadEntryRejected | pkg/apis/xgboost/validation/validation.go:28-71 | any failing entry makes validation fail |
| Defaults.FirstNamed | pkg/apis/xgboost/v1alpha1/defaults.go:38-44 | the index of the first container with the name, or none when no container has it |
| Defaults.PortContainer | pkg/apis/xgboost/v1alpha1/defaults.go:38-44 | the default-port container is a valid index (the first default-named one, else 0) |
| Defaults.DefaultPortPlaced | pkg/apis/xgboost/v1alpha1/defaults.go:37-59 | only that container changes, and only when it lacks the port name: {DefaultPortName, DefaultPort} is appended |
| Defaults.DefaultPortIdempotent | pkg/apis/xgboost/v1alpha1/defaults.go:46-58 | a second call adds nothing |
| Defaults.FirstNamedByNames | pkg/apis/xgboost/v1alpha1/defaults.go:38-44 | the chosen container depends only on the container names |
| Defaults.SetDefaultPort | pkg/apis/xgboost/v1alpha1/defaults.go:37-59 | only the rtype spec changes, to its port-defaulted form |
| Defaults.ReplicasDefaulted | pkg/apis/xgboost/v1alpha1/defaults.go:61-68 | nil replicas become 1 and an empty restart policy becomes DefaultRestartPolicy; set values and the template are kept |
| Defaults.SetDefaultReplicas | pkg/apis/xgboost/v1alpha1/defaults.go:61-68 | only the rtype spec changes, to ReplicasDefaulted |
| Defaults.DefaultedIdempotent | pkg/apis/xgboost/v1alpha1/defaults.go:99-104 | defaulting a spec twice equals defaulting it once |
| Defaults.Rename | pkg/apis/xgboost/v1alpha1/defaults.go:80-82 | the key moves to the canonical name with its spec, and every other key is kept |
| Defaults.SetTypeNameToCamelCase | pkg/apis/xgboost/v1alpha1/defaults.go:77-86 | at most one misspelt key (case-insensitively equal, different) is moved to the canonical name; the map never grows |
| Defaults.CanonicalNamesDiffer | pkg/apis/xgboost/v1alpha1/defaults.go:71-74 | "Worker" and "Master" are not case-insensitively equal |
| Defaults.MisspellsOne | pkg/apis/xgboost/v1alpha1/defaults.go:71-74 | no key misspells both canonical names |
| Defaults.DefaultedAll | pkg/apis/xgboost/v1alpha1/defaults.go:99-104 | defaulting every spec keeps the replica types |
| Defaults.DefaultedAllIdempotent | pkg/apis/xgboost/v1alpha1/defaults.go:99-104 | defaulting all specs twice equals once |
| Defaults.CleanPodPolicyDefaulted | pkg/apis/xgboost/v1alpha1/defaults.go:90-94 | a nil clean-pod policy becomes Running, and a set one is kept |
| Defaults.DefaultSpec | pkg/apis/xgboost/v1alpha1/defaults.go:100-103 | only the given spec changes, to its defaulted form |
| Defaults.DefaultEverySpec | pkg/apis/xgboost/v1alpha1/defaults.go:99-104 | the loop leaves every spec defaulted |
| Defaults.SetDefaults | pkg/apis/xgboost/v1alpha1/defaults.go:89-105 | the clean-pod policy is defaulted, Worker and then Master are camel-cased, and every spec is defaulted |
| Defaults.CamelCasedKeepsContainers | pkg/apis/xgboost/v1alpha1/defaults.go:77-86 | renaming keeps every spec's containers |
| Defaults.CamelCasedKeys | pkg/apis/xgboost/v1alpha1/defaults.go:77-86 | renaming introduces no new misspelt key of either canonical name |
| Defaults.CamelCasedSettles | pkg/apis/xgboost/v1alpha1/defaults.go:77-86 | with at most one misspelling, renaming leaves the map canonical for that name |
| Defaults.CamelCasedCanonical | pkg/apis/xgboost/v1alpha1/defaults.go:77-86 | on a canonical map, renaming changes nothing |
| Defaults.SetDefaultsIdempotent | pkg/apis/xgboost/v1alpha1/defaults.go:89-105 | applying SetDefaults twice equals applying it once |
| AlphaPods.AlphaLabels | pkg/controller.v1alpha1/xgboost/pod.go:87-93 | GenLabels plus the type and index labels, plus the job-role label iff master |
| AlphaPods.AlphaPortOf | pkg/controller.v1alpha1/xgboost/pod.go:222-235 | errs iff no default-named container has a DefaultPortName port; otherwise the first such port |
| AlphaPods.Int64Succ | pkg/controller.v1alpha1/xgboost/pod.go:173 | rank+1 as a 64-bit int: index+1 below the maximum, wrapped at it |
| AlphaPods.ClusterEnv | pkg/controller.v1alpha1/xgboost/pod.go:180-199 | exactly five variables are appended |
| AlphaPods.ClusterPlan | pkg/controller.v1alpha1/xgboost/pod.go:155-174 | a non-numeric index errs, then a missing master port; otherwise MASTER_PORT is the master port and WORLD_SIZE the total replicas |
| AlphaPods.MasterRankZero | pkg/controller.v1alpha1/xgboost/pod.go:166-171 | the Master succeeds iff its index is 0 (otherwise the single-master error), with MASTER_ADDR localhost and RANK 0 |
| AlphaPods.WorkerRankIsIndexPlusOne | pkg/controller.v1alpha1/xgboost/pod.go:165-174 | any other type gets RANK index+1 and MASTER_ADDR GenGeneralName(job, "master", "0") |
| AlphaPods.WithEnv | pkg/controller.v1alpha1/xgboost/pod.go:176-200 | every container is kept |
| AlphaPods.WithEnvKeepsPrefix | pkg/controller.v1alpha1/xgboost/pod.go:176-200 | each container's old env is a prefix, followed by exactly the five variables in order; name, image and ports are kept |
| AlphaPods.AppendClusterEnv | pkg/controller.v1alpha1/xgboost/pod.go:176-200 | the per-container append loop gives WithEnv |
| AlphaPods.SetClusterSpec | pkg/controller.v1alpha1/xgboost/pod.go:154-202 | an error leaves the template unchanged; otherwise only the containers' env changes |
| AlphaPods.AlphaNamedTemplate | pkg/controller.v1alpha1/xgboost/pod.go:86-105 | named GenGeneralName; template labels overridden by the v1alpha1 labels |
| AlphaPods.AlphaPodCreation | pkg/controller.v1alpha1/xgboost/pod.go:83-133 | fails iff the cluster plan fails; otherwise a create in the job's namespace with the owner reference, the general name and the replica restart policy |
| AlphaPods.CreatePod | pkg/controller.v1alpha1/xgboost/pod.go:69-147 | one expected creation is registered first; a plan error is returned with nothing sent; otherwise one create is sent and a Timeout is success |
| AlphaPods.AlphaPolicy | pkg/controller.v1alpha1/xgboost/controller.go:468-474 | as written: the port lookup name is string(DefaultPort), the character U+270F |
| AlphaPods.IntendedAlphaPolicy | pkg/controller.v1alpha1/xgboost/controller.go:468-474 | as intended: the port lookup name is DefaultPortName |
| AlphaPods.DefaultedPortMissedAsWritten | pkg/controller.v1alpha1/xgboost/controller.go:472-474 | as written, the port the defaulter adds is never found by GetPortFromJob |
| AlphaPods.DefaultedPortFoundIntended | pkg/controller.v1alpha1/xgboost/controller.go:472-474 | with the intended lookup name, the defaulted port DefaultPort is found |
| Util.ComputeMasterAddr | pkg/controller/xgboostjob/util.go:52-55 | the result has no '/', the joined length, and dashes at the two joins |
| Util.MasterAddrWithoutSlashes | pkg/controller/xgboostjob/util.go:52-55 | names without slashes are joined unchanged as job-type-index |
| Util.GetPortFromXGBoostJob | pkg/controller/xgboostjob/util.go:58-71 | errs iff no default-named container has a DefaultContainerPortName port; otherwise the first such port |
| Util.Wrap32 | pkg/controller/xgboostjob/util.go:73-88 | an int32 value, equal to the input when it fits |
| Util.ComputeTotalReplicas | pkg/controller/xgboostjob/util.go:73-88 | an int32, and 0 for an empty map |
| Util.SetSumRemove | pkg/controller/xgboostjob/util.go:77-86 | the order-free sum can take any key out first |
| Util.PlainSumIsSetSum | pkg/controller/xgboostjob/util.go:77-86 | summing in any enumeration order gives the order-free sum |
| Util.WrapAdd | pkg/controller/xgboostjob/util.go:77-86 | wrapping the accumulator at each step equals wrapping once at the end |
| Util.WrappedIsPlain | pkg/controller/xgboostjob/util.go:73-88 | the wrapping sum is the plain sum wrapped to int32 |
| Util.TotalReplicasIsSum | pkg/controller/xgboostjob/util.go:73-88 | the total is the int32-wrapped sum of all non-nil Replicas, whatever the range order; nil entries add 0 |
| Util.FakeWorkQueue.Len | pkg/controller/xgboostjob/util.go:97 | always 0 |
| Util.FakeWorkQueue.Get | pkg/controller/xgboostjob/util.go:100 | no item and no shutdown |
| Util.FakeWorkQueue.ShuttingDown | pkg/controller/xgboostjob/util.go:109 | always true |
| Util.FakeWorkQueue.NumRequeues | pkg/controller/xgboostjob/util.go:121 | always 0 |
| Expectations.SatisfiedExpectations | pkg/controller/xgboostjob/expectation.go:29-45 | true iff some replica type has a satisfied pods key or services key (an OR, not an AND); false for an empty map |
| Expectations.OnDependentCreate | pkg/controller/xgboostjob/expectation.go:48-63 | always passes; for the XGBoostJob reconciler, exactly one creation is observed on the pods key built from the dependent's own key and type label, even for services |
| Expectations.OnDependentDelete | pkg/controller/xgboostjob/expectation.go:66-81 | the same, observing exactly one deletion |
| Expectations.DependentKey | pkg/controller/xgboostjob/expectation.go:54-59 | no ensures: the pods key of the dependent's own object key and its replica-type label; Expectations.ObservationMissesJob proves it is never its job's key |
| Expectations.PodsKeyInjective | pkg/controller/xgboostjob/expectation.go:59 | equal pods keys come from equal object keys and lower-cased types |
| Expectations.SlashPositions | pkg/controller/xgboostjob/expectation.go:59 | in a pods key, the object key is the part before the last slash that precedes the type |
| Expectations.ObservationMissesJob | pkg/controller/xgboostjob/expectation.go:54-60 | source defect: the dependent of a slot observes its creation or deletion under its own object key (KeyFunc of the pod or service), so it never decrements its job's pods key, and the job's expectation is cleared only by a new expectation or by expiry |
| JobStatusUpdate.TypeStep | pkg/controller/xgboostjob/job.go:112-166 | the status completion time is set to now only when nil and the master is done; the job's completion time likewise when a failure fails the job; a Failed list is unchanged |
| JobStatusUpdate.StepConditions | pkg/controller/xgboostjob/job.go:122-166 | an active, unfinished master adds Running; a done master adds Succeeded; ExitCode failures add Restarting; Failed holds afterwards iff before or a non-ExitCode failure; Succeeded is kept |
| JobStatusUpdate.FoldEffects | pkg/controller/xgboostjob/job.go:112-166 | over all types: Failed iff already Failed or some type fails the job; both completion times are set to now exactly when nil and their trigger occurred |
| JobStatusUpdate.FoldSucceeds | pkg/controller/xgboostjob/job.go:131-143 | a done master leaves the job Succeeded unless it is Failed |
| JobStatusUpdate.OutcomeConditions | pkg/controller/xgboostjob/job.go:170-177 | after the trailing Running update: Failed iff some type fails the job; a Failed job is untouched by it; otherwise Running is present, and Succeeded too when the master is done |
| JobStatusUpdate.ApplyReplicaType | pkg/controller/xgboostjob/job.go:112-166 | the status and the job's completion time change exactly as TypeStep says |
| JobStatusUpdate.UpdateJobStatus | pkg/controller/xgboostjob/job.go:104-180 | a non-XGBoostJob errs with nothing changed; otherwise no error and the state is the Outcome of the per-type steps in range order |
| JobStatusUpdate.OnOwnerCreate | pkg/controller/xgboostjob/job.go:206-219 | always passes; for an XGBoostJob the job is defaulted and a Created condition is set; otherwise nothing changes |
| JobStatusUpdate.CreatedOnFreshJob | pkg/controller/xgboostjob/job.go:206-219 | a fresh job's conditions become exactly the Created condition |
| Reconciler.SnapshotOf | pkg/controller/xgboostjob/xgboostjob_controller.go:219-221 | the written status carries the conditions, counters and times of the status |
| Reconciler.UpdateJobStatusInApiServer | pkg/controller/xgboostjob/xgboostjob_controller.go:213-224 | a non-XGBoostJob errs with nothing sent; otherwise exactly one status write with the passed-in status, and its answer is returned |
| Reconciler.Reconcile | pkg/controller/xgboostjob/xgboostjob_controller.go:174-209 | NotFound gives no error and no reconcile, and another fetch error is returned; reconciles iff the expectations gate holds and the job is not deleting, and only then defaults the job (whose specs must then have containers); a ReconcileJobs error is returned without a write; a success always writes the status |
| Reconciler.ReconcileAdmitted | pkg/controller/xgboostjob/xgboostjob_controller.go:196-208 | the job is defaulted; a ReconcileJobs error is returned with nothing sent; otherwise the status is written |
| AlphaController.AlphaSatisfiedExpectations | pkg/controller.v1alpha1/xgboost/controller.go:298-320 | true iff some type has a satisfied pods or services key; false for an empty map |
| AlphaController.FirstSlash | pkg/controller.v1alpha1/xgboost/controller.go:250 | the position of the first '/', or none iff there is none |
| AlphaController.SplitKey | pkg/controller.v1alpha1/xgboost/controller.go:250-253 | errs iff the key has two or more slashes; otherwise the parts have no slash and rejoin to the key (a key without a slash is a name only) |
| AlphaController.SplitJobKey | pkg/controller.v1alpha1/xgboost/controller.go:250-256 | the key of a job whose namespace and name have no slash splits back into them |
| AlphaController.SyncXGBoostJob | pkg/controller.v1alpha1/xgboost/controller.go:243-293 | the loop returns exactly the result that SyncSpec specifies |
| AlphaController.SyncSpec | pkg/controller.v1alpha1/xgboost/controller.go:243-293 | no ensures: the specification of syncXGBoostJob; AlphaController.SyncRules states its forget, reconcile and error rules |
| AlphaController.SyncRules | pkg/controller.v1alpha1/xgboost/controller.go:250-292 | forget iff no error; ReconcileJobs runs iff the key is valid, the job exists, is not deleting and the gate holds, and its error is returned; a key missing namespace or name errs; a missing job gives (true, nil) |
| AlphaController.WorkQueue.constructor | pkg/controller.v1alpha1/xgboost/controller.go:188 | the queue holds the given items, nothing processing, no requeues |
| AlphaController.WorkQueue.Get | pkg/controller.v1alpha1/xgboost/controller.go:188-191 | quit iff empty; otherwise the head is handed out and marked processing |
| AlphaController.WorkQueue.Done | pkg/controller.v1alpha1/xgboost/controller.go:192 | the item is no longer processing |
| AlphaController.WorkQueue.Forget | pkg/controller.v1alpha1/xgboost/controller.go:200 | the item's requeue count is dropped |
| AlphaController.WorkQueue.AddRateLimited | pkg/controller.v1alpha1/xgboost/controller.go:235 | the item's requeue count grows by one |
| AlphaController.WorkQueue.NumRequeues | pkg/controller.v1alpha1/xgboost/controller.go:235 | the item's requeue count, 0 when it has none |
| AlphaController.ProcessNextWorkItem | pkg/controller.v1alpha1/xgboost/controller.go:187-237 | false iff the queue is empty; otherwise the head is dequeued, marked done and its requeue count follows the sync outcome |
| AlphaController.RequeuesAfter | pkg/controller.v1alpha1/xgboost/controller.go:187-237 | no ensures: the requeue counts after one item; AlphaController.ProcessedItemSettles states them |
| AlphaController.ProcessedItemSettles | pkg/controller.v1alpha1/xgboost/controller.go:196-235 | a non-string item is forgotten; a synced key is forgotten on success and requeued once more on error; no other item's count changes |
| AlphaController.BackoffInRange | pkg/controller.v1alpha1/xgboost/controller.go:362-369 | in int32 range, the backoff is exceeded iff the limit is set, failures are new, active differs from the total and previousRetry+1 exceeds the limit; more retries never undo it |
| AlphaController.ExceedsBackoffLimit | pkg/controller.v1alpha1/xgboost/controller.go:359-369 | no ensures: the int32 backoff test; AlphaController.BackoffInRange states it within int32 range |
| AlphaController.Retired | pkg/controller.v1alpha1/xgboost/controller.go:422-423 | Active becomes 0, Failed is kept and the total is kept (Active moves into Succeeded) |
| AlphaController.RetiredAll | pkg/controller.v1alpha1/xgboost/controller.go:420-425 | every replica type is retired and no type is added or lost |
| AlphaController.RetiredAllIdempotent | pkg/controller.v1alpha1/xgboost/controller.go:420-425 | retiring twice equals retiring once |
| AlphaController.MoveActiveToSucceeded | pkg/controller.v1alpha1/xgboost/controller.go:420-425 | the loop retires every replica status; nil stays nil |
| AlphaController.LimitMessage | pkg/controller.v1alpha1/xgboost/controller.go:376-384 | a failure message exists iff the backoff is exceeded, the backoff limit is past (when set) or the deadline is past; the backoff message wins |
| AlphaController.FailureDecision | pkg/controller.v1alpha1/xgboost/controller.go:355-384 | the job exceeds its limit iff LimitMessage gives a message, and the failure message is that message |
| AlphaController.FinishTerminal | pkg/controller.v1alpha1/xgboost/controller.go:406-425 | on a limit, CompletionTime is set only if nil and Failed is set; a Succeeded job has its replicas retired |
| AlphaController.ReconcileTerminal | pkg/controller.v1alpha1/xgboost/controller.go:355-427 | terminal iff Succeeded, Failed or over a limit; a non-terminal job is untouched and gets no error; a terminal one gets the Failed condition, completion time and retirement described above and returns the status handler's answer |
| AlphaController.LimitFailsJob | pkg/controller.v1alpha1/xgboost/controller.go:406-417 | after the limit's Failed update the job is Failed, and it is Succeeded iff it was before |

## Left out

- Logging, events sent through the Recorder, and metrics: they change no state the model tracks.
- KeyFunc errors: the key of a typed object with metadata cannot fail, so the key-error branches of createNewPod, CreateNewService, satisfiedExpectations, CreatePod and the dependent callbacks are not modelled.
- The ExpectCreations error return: the tracker is modelled as a map that always accepts an expectation.
- The expectation tracker's time-based expiry: expired keys are an abstract set `expired`.
- validateControllerRef and getServiceFromTemplate: the owner reference passed is always built by GenOwnerReference, so their error paths are unreachable here.
- The pod-template restart-policy and scheduler warnings: they only emit events.
- JobController.DeletePdb (vendor/github.com/kubeflow/common/job_controller/job_controller.go:129-147): the core never calls it.
- The pod and service informer event handlers (AddPod, UpdatePod, DeletePod, AddService and the rest) and the job informer's conversion code (pkg/controller.v1alpha1/xgboost/informer.go is not part of this model): the informer is a map from key to a job or an error.
- Label-selector matching: it is modelled as equality of the replica-type label, and building the selector fails exactly for a replica type that is not a Kubernetes label value; the selector's error text is not modelled. k8s.io/apimachinery is not part of this model, so the label-value syntax is written out in Slots.IsLabelValue.
- The retryable-exit-code rule is a parameter of `Pods.PodControl`.
- A controller's SetClusterSpec hook is a parameter of `Pods.PodControl`.
- `ReconcileJobs` is a parameter `reconcileErr`; it is the generic controller's driver and is not part of this model.
- deletePodsAndServices, cleanup and DeletePodGroup inside the v1alpha1 terminal branch: reconcileXGBoostJobs references undefined identifiers and does not compile, so only its decisions are modelled.
- pastBackoffLimit and pastActiveDeadline are boolean parameters.
- The Failed reason of the v1alpha1 terminal branch is a parameter, because `pytorchJobFailedReason` is undefined there.
- The per-replica reconcile in reconcileXGBoostJobs after the terminal check: that code does not compile.
- The gang-scheduling SyncPodGroup call in syncXGBoostJob: its error is only logged, and the PodGroup behaviour is modelled by JobController.SyncPodGroup.
- The defaulting of the job copy in syncXGBoostJob: it only feeds ReconcileJobs, which is a parameter here.
- The rate limiter's delay before AddRateLimited re-adds an item: it is time-based, so the model keeps only the requeue count.
- The second UpdateJobStatusInApiServer in pkg/controller/xgboostjob/job.go:183-203: it duplicates the one modelled from xgboostjob_controller.go and does not compile next to it.
- The error returns after UpdateJobConditions in UpdateJobStatus and the v1alpha1 terminal branch: UpdateJobConditions always returns nil, so those branches are dead.
- Go panics on a nil pointer or a missing map entry are preconditions:
  - non-empty containers for setDefaultPort, which Reconcile needs only for a job that passes the expectations gate and is not being deleted, and JobStatusUpdate.OnOwnerCreate needs for an XGBoostJob;
  - a non-nil spec for every replica type: the replica map is `map<string, ReplicaSpec>`, because Go dereferences every value in Defaults.SetDefaults (setDefaultReplicas and setDefaultPort), Util.ComputeTotalReplicas (`r.Replicas`), JobStatusUpdate.UpdateJobStatus (`*(spec.Replicas)`) and so on the Reconcile path; only Validation sees nil values, through Api.SpecView;
  - a present rtype spec for GetPortFromXGBoostJob;
  - non-nil Replicas for ReconcilePods, ReconcileServices and UpdateJobStatus;
  - a non-negative replica count for ReconcilePods and ReconcileServices, since GetPodSlices and GetServiceSlices make a slice of that length;
  - present counters for every replica type in UpdateJobStatus;
  - a Master spec for setClusterSpec.
- JobController.SyncPdb: on a failing lookup or a failing create Go returns whatever object the client returned next to the error; the model returns no PDB there.
- AlphaController.UnexpectedKeyFormat and AlphaController.InvalidJobKey: the key is quoted without the escaping of Go's %q, so a key holding a quote or a non-printable character gives a different message.
- The strconv error texts are not modelled: Atoi returns None, and the model keeps only the fact of the error.
- Times are abstract integers; metav1.Now becomes the `now` parameter.
- JobStatusUpdate.UpdateJobStatus: does not model the int32 wrap-around of `expected = Replicas - Succeeded`. Counters are taken as unbounded integers.
- AlphaController.MoveActiveToSucceeded: does not model the int32 wrap-around of `Succeeded += Active`.
- JobStatusUpdate.UpdateJobStatus requires the status it updates to be a different object from the job's own status, as the caller's copy is; aliasing of the two is not modelled.
- Defaults.SetDefaultsIdempotent: proved only when each canonical type name has at most one misspelt key. With two keys that both misspell the same name, Go's map order decides which survives, and a second pass can rename the other.
- The Python SDK (sdk/python), the training samples (config/samples) and the server command (cmd/) are outside the controller core.
- The v1 controller (pkg/controller/v1/xgboostjob) repeats the Reconcile gating modelled here.
- pkg/controller/xgboostjob/pod.go and service.go are thin API-client wrappers, modelled by Client.ApiClient. CreatePod and DeletePod address the job's namespace (pkg/controller/xgboostjob/pod.go:28-44), and so do the create requests of Pods.CreateNewPod and the restart deletions of Pods.ReconcileSlot, whatever namespace the listed pod is in.
- Common.ToLower and Common.EqualFold: they fold the ASCII letters only, while Go's strings.ToLower and strings.EqualFold follow Unicode case mapping and simple folding. A replica type with a non-ASCII upper-case letter is lower-cased differently in the replica-type label, the pod and service names and the expectation keys.
- Defaults.SetTypeNameToCamelCase: matches keys ASCII-case-insensitively, so a key that strings.EqualFold matches only through Unicode folding (such as "Wor\u212Aer", with the Kelvin sign, or "Maſter") is not renamed.
- Defaults.SetDefaults: inherits the ASCII-only matching of Defaults.SetTypeNameToCamelCase.
- scheme.Scheme.Default in Reconcile (pkg/controller/xgboostjob/xgboostjob_controller.go:198) and in onOwnerCreateFunc (pkg/controller/xgboostjob/job.go:212) is taken to run SetDefaults_XGBoostJob of pkg/apis/xgboost/v1alpha1 (Defaults.SetDefaults) on the job. The job there has the type of pkg/apis/xgboostjobs/v1alpha1, and the registration of a defaulter for that type in the scheme is not part of this model. If none is registered, Default changes nothing, and Reconciler.ReconcileAdmitted and JobStatusUpdate.OnOwnerCreate default more than Go does.
- k8sutil.GetTotalReplicas (pkg/controller.v1alpha1/xgboost/pod.go:95) is not part of this model: the total replica count is the parameter `totalReplicas` of AlphaPods.ClusterPlan, AlphaPods.SetClusterSpec and AlphaPods.CreatePod.
- The v1alpha1 status handler (`updateStatusHandler`, pkg/controller.v1alpha1/xgboost/controller.go:426) is not part of this model: its answer is the parameter `handlerErr` of AlphaController.ReconcileTerminal, which the terminal branch returns.

## Findings

| source | as written | input that shows it | evidently intended | confidence | as-written member | corrected member |
|---|---|---|---|---|---|---|
| vendor/github.com/kubeflow/common/job_controller/service.go:228-241 | createServices wraps every create error with fmt.Errorf (service.go:262-266), so the `errors.IsTimeout` test in CreateNewService never holds, and a Timeout is reported as a failure | the API server answers the service create with a Timeout: CreateNewService returns an error, and ReconcileServices stops reconciling the remaining slots | a Timeout counts as success, as the comment at service.go:230-236 and the pod path (pod.go:423-431) say | not executed | Services.ServiceOutcome, Services.ServiceTimeoutReported | Services.IntendedServiceOutcome |
| pkg/controller.v1alpha1/xgboost/controller.go:472-474 | GetDefaultContainerPortNumber returns `string(v1alpha1.DefaultPort)`, the conversion of the integer 9999 to a one-rune string (U+270F), not a port name | a v1alpha1 job whose containers declare no ports: defaulting adds the port "xgboostjob-port", but GetPortFromJob looks for a port named U+270F, finds none, and every service creation fails | return the port name DefaultPortName, which the defaulter adds | not executed | AlphaPods.AlphaPolicy, AlphaPods.DefaultedPortMissedAsWritten | AlphaPods.IntendedAlphaPolicy, AlphaPods.DefaultedPortFoundIntended |
