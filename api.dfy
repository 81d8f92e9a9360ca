/** The object shapes the reconciliation core reads and writes: replica specs
    and pod templates, pods and services as observed in the cluster, job
    conditions and per-replica counters, plus the fixed label keys and the
    job-kind constants. Only the fields the core looks at are kept. */
module Api {
  import opened Common

  // Replica types of an XGBoostJob.
  const MasterType: string := "Master"
  const WorkerType: string := "Worker"

  // Label keys shared by every kubeflow job controller.
  const ReplicaTypeLabel: string := "replica-type"
  const ReplicaIndexLabel: string := "replica-index"
  const GroupNameLabel: string := "group-name"
  const JobNameLabel: string := "job-name"
  const JobRoleLabel: string := "job-role"

  /** Scheduler name requested when gang scheduling is on. */
  const GangSchedulerName: string := "kube-batch"

  // Constants of the XGBoostJob kind (its constants file is not part of
  // this model; these are its values).
  const GroupName: string := "xgboostjob.kubeflow.org"
  const DefaultContainerName: string := "xgboostjob"
  const DefaultPortName: string := "xgboostjob-port"
  const DefaultContainerPortName: string := "xgboostjob-port"
  const DefaultPort: int := 9999
  const DefaultRestartPolicy: RestartPolicy := Never

  /** Replica-level restart policy; `RestartPolicyUnset` is the empty string. */
  datatype RestartPolicy = RestartPolicyUnset | Always | OnFailure | Never | ExitCode

  datatype CleanPodPolicy = CleanPodPolicyAll | CleanPodPolicyRunning | CleanPodPolicyNone

  datatype PodPhase = PodPending | PodRunning | PodSucceeded | PodFailed | PodUnknown

  datatype ContainerPort = ContainerPort(name: string, containerPort: int)

  datatype EnvVar = EnvVar(name: string, value: string)

  datatype Container = Container(name: string, image: string, ports: seq<ContainerPort>, env: seq<EnvVar>)

  datatype PodTemplate = PodTemplate(
    name: string,
    labels: map<string, string>,
    containers: seq<Container>,
    restartPolicy: RestartPolicy,
    schedulerName: string)

  /** `replicas` is None when the pointer is nil. */
  datatype ReplicaSpec = ReplicaSpec(replicas: Option<int>, template: PodTemplate, restartPolicy: RestartPolicy)

  datatype RunPolicy = RunPolicy(
    cleanPodPolicy: Option<CleanPodPolicy>,
    backoffLimit: Option<int>,
    activeDeadlineSeconds: Option<int>)

  /** The part of an object's metadata the core uses. */
  datatype Meta = Meta(namespace: string, name: string, uid: string, labels: map<string, string>)

  /** A container status; `terminated` holds the exit code once the
      container has terminated. */
  datatype ContainerStatus = ContainerStatus(name: string, terminated: Option<int>)

  datatype Pod = Pod(meta: Meta, phase: PodPhase, containerStatuses: seq<ContainerStatus>)

  datatype OwnerReference = OwnerReference(
    apiVersion: string,
    kind: string,
    name: string,
    uid: string,
    blockOwnerDeletion: bool,
    controller: bool)

  datatype ServicePort = ServicePort(name: string, port: int)

  datatype Service = Service(
    meta: Meta,
    ownerReferences: seq<OwnerReference>,
    clusterIP: string,
    selector: map<string, string>,
    ports: seq<ServicePort>)

  datatype ConditionType = JobCreated | JobRunning | JobRestarting | JobSucceeded | JobFailed

  datatype ConditionStatus = ConditionTrue | ConditionFalse | ConditionUnknown

  /** Times are abstract clock readings. */
  datatype JobCondition = JobCondition(
    ctype: ConditionType,
    status: ConditionStatus,
    reason: string,
    message: string,
    lastUpdateTime: int,
    lastTransitionTime: int)

  datatype ReplicaStatus = ReplicaStatus(active: int, succeeded: int, failed: int)

  /** The capabilities a job kind hands to the generic job controller: its
      group/version/kind, label value, default container name, the string
      its ports are looked up by, and whether gang scheduling is on. */
  datatype Policy = Policy(
    apiVersion: string,
    kind: string,
    groupNameLabelValue: string,
    defaultContainerName: string,
    defaultContainerPortNumber: string,
    enableGangScheduling: bool)

  /** IsMasterRole of both XGBoost controllers: the replica type is "Master",
      whatever the index and the replica map. */
  predicate IsMasterRole(replicas: map<string, ReplicaSpec>, rtype: string, index: int)
    ensures IsMasterRole(replicas, rtype, index) <==> rtype == "Master"
  {
    rtype == MasterType
  }

  /** The job's replica spec map as Go holds it: a map of pointers that may
      itself be nil. Validation reads this view; the rest of the model takes
      a map of present specs, because defaulting, the total-replica count
      and the status update dereference every value. */
  type SpecView = Option<map<string, Option<ReplicaSpec>>>
}
