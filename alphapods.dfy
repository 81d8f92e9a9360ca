/** Pod creation of the v1alpha1 XGBoost controller: its labels, the
    cluster environment every container of a replica's pod receives
    (setClusterSpec), the master-port search it uses, and CreatePod, which
    records the expected creation before building and sending the pod. */
module AlphaPods {
  import opened Common
  import opened Api
  import opened Tracker
  import opened Client
  import opened JobController
  import opened Ports
  import opened Pods
  import opened Services
  import opened Defaults

  // Label keys of the v1alpha1 controller; the group-name and job-name
  // labels come from the shared GenLabels.
  const AlphaReplicaTypeLabel: string := "xgboost-replica-type"
  const AlphaReplicaIndexLabel: string := "xgboost-replica-index"
  const AlphaJobRoleLabel: string := "xgboost-job-role"

  const AlphaPortNotFound: Error := Failure("failed to found the port")
  const SingleMaster: Error := Failure("invalid config: There should be only a single master with index=0")
  /** strconv.Atoi's error for an index that is not a decimal int64 (its
      text, which quotes the input, is not modelled). */
  const IndexNotNumeric: Error := Failure("strconv.Atoi: invalid index")

  /** The labels CreatePod puts on a replica's pod. */
  function AlphaLabels(policy: Policy, jobName: string, rt: string, index: string, masterRole: bool)
    : (r: map<string, string>)
    ensures r.Keys == {GroupNameLabel, JobNameLabel, AlphaReplicaTypeLabel, AlphaReplicaIndexLabel} +
                      (if masterRole then {AlphaJobRoleLabel} else {})
    ensures r[AlphaReplicaTypeLabel] == rt && r[AlphaReplicaIndexLabel] == index
    ensures r[JobNameLabel] == ReplaceSlashes(jobName) && r[GroupNameLabel] == policy.groupNameLabelValue
    ensures masterRole ==> r[AlphaJobRoleLabel] == "master"
  {
    var base := GenLabels(policy, jobName)[AlphaReplicaTypeLabel := rt][AlphaReplicaIndexLabel := index];
    if masterRole then base[AlphaJobRoleLabel := "master"] else base
  }

  /** GetPortFromXGBoostJob (v1alpha1): the first port named DefaultPortName
      of a default-named container of the rtype replica. The spec must be
      present: Go dereferences it unchecked. */
  function AlphaPortOf(specs: map<string, ReplicaSpec>, rtype: string): (r: Result<int>)
    requires rtype in specs
    ensures var cs := specs[rtype].template.containers;
            (r.Err? <==> NoPort(cs, DefaultContainerName, DefaultPortName)) &&
            (r.Err? ==> r.error == AlphaPortNotFound) &&
            (r.Ok? ==> IsFirstPort(cs, DefaultContainerName, DefaultPortName, r.value))
  {
    FindPortFirst(specs[rtype].template.containers, DefaultContainerName, DefaultPortName);
    match FindPort(specs[rtype].template.containers, DefaultContainerName, DefaultPortName)
    case Some(p) => Ok(p)
    case None => Err(AlphaPortNotFound)
  }

  /** Go's int addition wraps at the 64-bit boundary. */
  function Int64Succ(n: int): (r: int)
    requires MinInt64 <= n <= MaxInt64
    ensures MinInt64 <= r <= MaxInt64
    ensures n < MaxInt64 ==> r == n + 1
  {
    if n == MaxInt64 then MinInt64 else n + 1
  }

  /** The five variables setClusterSpec appends, in order. */
  function ClusterEnv(masterPort: int, masterAddr: string, worldSize: int, rank: int): (env: seq<EnvVar>)
    ensures |env| == 5
  {
    [EnvVar("MASTER_PORT", Itoa(masterPort)),
     EnvVar("MASTER_ADDR", masterAddr),
     EnvVar("WORLD_SIZE", Itoa(worldSize)),
     EnvVar("RANK", Itoa(rank)),
     EnvVar("PYTHONUNBUFFERED", "0")]
  }

  /** The master's address as every non-master replica sees it. */
  function MasterAddr(jobName: string): string
  {
    GenGeneralName(jobName, ToLower(MasterType), Itoa(0))
  }

  /** The environment setClusterSpec appends to every container, or the
      error it returns first: an index that does not parse, a master
      without a port, a master whose index is not 0. */
  function ClusterPlan(jobName: string, specs: map<string, ReplicaSpec>, totalReplicas: int, index: string, rtype: string)
    : (r: Result<seq<EnvVar>>)
    requires MasterType in specs
    ensures Atoi(index).None? ==> r == Err(IndexNotNumeric)
    ensures Atoi(index).Some? && AlphaPortOf(specs, MasterType).Err? ==> r == Err(AlphaPortNotFound)
    ensures r.Ok? ==> Atoi(index).Some? && AlphaPortOf(specs, MasterType).Ok? &&
                      |r.value| == 5 && r.value[0] == EnvVar("MASTER_PORT", Itoa(AlphaPortOf(specs, MasterType).value)) &&
                      r.value[2] == EnvVar("WORLD_SIZE", Itoa(totalReplicas))
  {
    match Atoi(index)
    case None => Err(IndexNotNumeric)
    case Some(rank) =>
      match AlphaPortOf(specs, MasterType)
      case Err(e) => Err(e)
      case Ok(port) =>
        if rtype == MasterType then
          if rank != 0 then Err(SingleMaster) else Ok(ClusterEnv(port, "localhost", totalReplicas, 0))
        else Ok(ClusterEnv(port, MasterAddr(jobName), totalReplicas, Int64Succ(rank)))
  }

  /** The master replica runs as rank 0 on "localhost", and only index 0 is
      accepted for it. */
  lemma MasterRankZero(jobName: string, specs: map<string, ReplicaSpec>, totalReplicas: int, index: string)
    requires MasterType in specs && AlphaPortOf(specs, MasterType).Ok? && Atoi(index).Some?
    ensures var r := ClusterPlan(jobName, specs, totalReplicas, index, MasterType);
            (r.Ok? <==> Atoi(index) == Some(0)) &&
            (r.Err? ==> r.error == SingleMaster) &&
            (r.Ok? ==> r.value[1] == EnvVar("MASTER_ADDR", "localhost") && r.value[3] == EnvVar("RANK", "0"))
  {
    assert Itoa(0) == "0";
  }

  /** A worker with index i (written as strconv.Itoa writes it) runs as rank
      i + 1 and reaches the master at "<job>-master-0". */
  lemma WorkerRankIsIndexPlusOne(jobName: string, specs: map<string, ReplicaSpec>, totalReplicas: int, i: int, rtype: string)
    requires MasterType in specs && AlphaPortOf(specs, MasterType).Ok?
    requires rtype != MasterType && MinInt64 <= i < MaxInt64
    ensures var r := ClusterPlan(jobName, specs, totalReplicas, Itoa(i), rtype);
            r.Ok? && r.value[3] == EnvVar("RANK", Itoa(i + 1)) && Atoi(r.value[3].value) == Some(i + 1) &&
            r.value[1] == EnvVar("MASTER_ADDR", GenGeneralName(jobName, "master", "0"))
  {
    AtoiItoa(i);
    AtoiItoa(i + 1);
    assert ToLower(MasterType) == "master";
    assert Itoa(0) == "0";
  }

  /** Every container with the environment appended to its own. */
  function WithEnv(cs: seq<Container>, env: seq<EnvVar>): (r: seq<Container>)
    ensures |r| == |cs|
  {
    seq(|cs|, k requires 0 <= k < |cs| => cs[k].(env := cs[k].env + env))
  }

  /** What appending does to the containers: exactly the given variables
      are added, in order, after each container's own, and no other field
      changes. */
  lemma WithEnvKeepsPrefix(cs: seq<Container>, env: seq<EnvVar>)
    ensures var r := WithEnv(cs, env);
            forall k :: 0 <= k < |cs| ==>
              |r[k].env| == |cs[k].env| + |env| && r[k].env[..|cs[k].env|] == cs[k].env &&
              r[k].env[|cs[k].env|..] == env &&
              r[k].name == cs[k].name && r[k].image == cs[k].image && r[k].ports == cs[k].ports
  {
    var r := WithEnv(cs, env);
    forall k | 0 <= k < |cs|
      ensures r[k].env[..|cs[k].env|] == cs[k].env && r[k].env[|cs[k].env|..] == env
    {
      assert r[k].env == cs[k].env + env;
    }
  }

  /** The loop of setClusterSpec: the five variables appended, one at a
      time, to the environment of every container. */
  method AppendClusterEnv(containers: seq<Container>, masterPort: int, masterAddr: string, worldSize: int, rank: int)
    returns (cs: seq<Container>)
    ensures cs == WithEnv(containers, ClusterEnv(masterPort, masterAddr, worldSize, rank))
  {
    ghost var env := ClusterEnv(masterPort, masterAddr, worldSize, rank);
    cs := containers;
    var i := 0;
    while i < |cs|
      invariant 0 <= i <= |cs| && |cs| == |containers|
      invariant forall k :: 0 <= k < i ==> cs[k] == containers[k].(env := containers[k].env + env)
      invariant forall k :: i <= k < |cs| ==> cs[k] == containers[k]
    {
      var e := cs[i].env;
      e := e + [EnvVar("MASTER_PORT", Itoa(masterPort))];
      e := e + [EnvVar("MASTER_ADDR", masterAddr)];
      e := e + [EnvVar("WORLD_SIZE", Itoa(worldSize))];
      e := e + [EnvVar("RANK", Itoa(rank))];
      e := e + [EnvVar("PYTHONUNBUFFERED", "0")];
      cs := cs[i := cs[i].(env := e)];
      i := i + 1;
    }
  }

  /** setClusterSpec on the pod template; the template is CreatePod's own
      deep copy, so it is returned updated. */
  method SetClusterSpec(template: PodTemplate, jobName: string, specs: map<string, ReplicaSpec>, totalReplicas: int,
                        index: string, rtype: string) returns (r: Result<PodTemplate>)
    requires MasterType in specs
    ensures var plan := ClusterPlan(jobName, specs, totalReplicas, index, rtype);
            (plan.Err? ==> r == Err(plan.error)) &&
            (plan.Ok? ==> r == Ok(template.(containers := WithEnv(template.containers, plan.value))))
  {
    var parsed := Atoi(index);
    if parsed.None? {
      return Err(IndexNotNumeric);
    }
    var rank := parsed.value;
    var masterPort := AlphaPortOf(specs, MasterType);
    if masterPort.Err? {
      return Err(masterPort.error);
    }
    var masterAddr := GenGeneralName(jobName, ToLower(MasterType), Itoa(0));
    if rtype == MasterType {
      if rank != 0 {
        return Err(SingleMaster);
      }
      masterAddr := "localhost";
    } else {
      rank := if rank == MaxInt64 then MinInt64 else rank + 1;
    }
    var cs := AppendClusterEnv(template.containers, masterPort.value, masterAddr, totalReplicas, rank);
    r := Ok(template.(containers := cs));
  }

  /** The template of a replica's pod before the cluster environment: the
      replica's template renamed to GenGeneralName, with the v1alpha1 labels
      laid over its own. */
  function AlphaNamedTemplate(policy: Policy, job: Meta, rt: string, index: string, spec: ReplicaSpec, masterRole: bool)
    : (t: PodTemplate)
    ensures t.name == GenGeneralName(job.name, rt, index)
    ensures var own := AlphaLabels(policy, job.name, rt, index, masterRole);
            t.labels.Keys == spec.template.labels.Keys + own.Keys &&
            (forall k :: k in own ==> t.labels[k] == own[k]) &&
            (forall k :: k in spec.template.labels && k !in own ==> t.labels[k] == spec.template.labels[k])
    ensures t.containers == spec.template.containers
  {
    spec.template.(name := GenGeneralName(job.name, rt, index),
                   labels := spec.template.labels + AlphaLabels(policy, job.name, rt, index, masterRole))
  }

  /** The create request CreatePod sends, or the setClusterSpec error. */
  function AlphaPodCreation(policy: Policy, job: Meta, specs: map<string, ReplicaSpec>, rtype: string, index: string,
                            spec: ReplicaSpec, masterRole: bool, totalReplicas: int): (r: Result<Request>)
    requires MasterType in specs
    ensures var plan := ClusterPlan(job.name, specs, totalReplicas, index, rtype);
            (r.Err? <==> plan.Err?) && (r.Err? ==> r.error == plan.error)
    ensures r.Ok? ==> r.value.CreatePodRequest? && r.value.namespace == job.namespace &&
                      r.value.owner == Some(GenOwnerReference(policy, job)) &&
                      r.value.template.name == GenGeneralName(job.name, ToLower(rtype), index) &&
                      r.value.template.restartPolicy == PodRestartPolicy(spec)
  {
    var t := AlphaNamedTemplate(policy, job, ToLower(rtype), index, spec, masterRole);
    match ClusterPlan(job.name, specs, totalReplicas, index, rtype)
    case Err(e) => Err(e)
    case Ok(env) =>
      Ok(CreatePodRequest(job.namespace, FinalTemplate(policy, t.(containers := WithEnv(t.containers, env)), spec, specs),
                          Some(GenOwnerReference(policy, job))))
  }

  /** CreatePod (v1alpha1): one expected creation is recorded on the pods
      key before anything else; a setClusterSpec error is returned with
      nothing sent; otherwise the pod is sent with the job as controller
      owner and a create timeout counts as success. The total replica count
      comes from a helper that is not part of this model. */
  method CreatePod(policy: Policy, job: Meta, specs: map<string, ReplicaSpec>, rtype: string, index: string,
                   spec: ReplicaSpec, masterRole: bool, totalReplicas: int,
                   tracker: ExpectationTracker, client: ApiClient) returns (err: Option<Error>)
    requires MasterType in specs
    modifies tracker, client
    ensures tracker.records == old(tracker.records)[PodsKey(JobKey(job), ToLower(rtype)) := Record(1, 0)]
    ensures tracker.expired == old(tracker.expired) - {PodsKey(JobKey(job), ToLower(rtype))}
    ensures var c := AlphaPodCreation(policy, job, specs, rtype, index, spec, masterRole, totalReplicas);
            (c.Err? ==> err == Some(c.error) && client.requests == old(client.requests)) &&
            (c.Ok? ==> client.requests == old(client.requests) + [c.value] &&
                       err == CreateOutcome(client.reply(|old(client.requests)|)))
  {
    var rt := ToLower(rtype);
    tracker.ExpectCreations(PodsKey(JobKey(job), rt), 1);
    var controllerRef := GenOwnerReference(policy, job);
    var labels := GenLabels(policy, job.name);
    labels := labels[AlphaReplicaTypeLabel := rt];
    labels := labels[AlphaReplicaIndexLabel := index];
    if masterRole {
      labels := labels[AlphaJobRoleLabel := "master"];
    }
    var template := spec.template;
    template := template.(name := GenGeneralName(job.name, rt, index));
    template := template.(labels := template.labels + labels);
    var withCluster := SetClusterSpec(template, job.name, specs, totalReplicas, index, rtype);
    if withCluster.Err? {
      return Some(withCluster.error);
    }
    template := withCluster.value;
    if spec.restartPolicy == ExitCode {
      template := template.(restartPolicy := Never);
    } else {
      template := template.(restartPolicy := spec.restartPolicy);
    }
    if policy.enableGangScheduling {
      if !IsNonGangSchedulerSet(specs) {
        template := template.(schedulerName := GangSchedulerName);
      }
    }
    var reply := client.Send(CreatePodRequest(job.namespace, template, Some(controllerRef)));
    if reply.Some? && reply.value == Timeout {
      return None;
    }
    err := reply;
  }

  // ---------------------------------------------------------------------
  // The port name the v1alpha1 controller hands to the shared service code

  /** GetDefaultContainerPortNumber of the v1alpha1 controller:
      string(DefaultPort), the one-character string of code point 9999. */
  const AlphaPortLookupName: string := [9999 as char]

  /** The policy the v1alpha1 controller gives the shared job controller. */
  function AlphaPolicy(apiVersion: string, kind: string, gang: bool): (p: Policy)
    ensures p.defaultContainerName == DefaultContainerName
    ensures p.defaultContainerPortNumber == AlphaPortLookupName
  {
    Policy(apiVersion, kind, GroupName, DefaultContainerName, AlphaPortLookupName, gang)
  }

  /** The same policy with the port looked up by DefaultPortName, the name
      defaulting gives the port. */
  function IntendedAlphaPolicy(apiVersion: string, kind: string, gang: bool): (p: Policy)
    ensures p.defaultContainerName == DefaultContainerName
    ensures p.defaultContainerPortNumber == DefaultPortName
  {
    Policy(apiVersion, kind, GroupName, DefaultContainerName, DefaultPortName, gang)
  }

  /** A replica whose default-named containers come without ports. */
  predicate NoDeclaredPorts(spec: ReplicaSpec)
  {
    |spec.template.containers| > 0 &&
    forall c :: c in spec.template.containers && c.name == DefaultContainerName ==> c.ports == []
  }

  /** As written: after defaulting gives the default-named container its
      port, the shared service code still finds no port under the v1alpha1
      policy, because it looks for a port named by one character. */
  lemma DefaultedPortMissedAsWritten(apiVersion: string, kind: string, gang: bool, spec: ReplicaSpec)
    requires NoDeclaredPorts(spec)
    ensures GetPortFromJob(AlphaPolicy(apiVersion, kind, gang), PortDefaulted(spec)) == Err(PortNotFound)
  {
    var cs := spec.template.containers;
    var d := WithDefaultPort(cs);
    DefaultPortPlaced(cs);
    assert DefaultPortName != AlphaPortLookupName by {
      assert |DefaultPortName| != 1;
    }
  }

  /** Intended: looking the port up by DefaultPortName finds the defaulted
      port, DefaultPort, whenever the replica has a default-named
      container. */
  lemma DefaultedPortFoundIntended(apiVersion: string, kind: string, gang: bool, spec: ReplicaSpec)
    requires NoDeclaredPorts(spec)
    requires exists c :: c in spec.template.containers && c.name == DefaultContainerName
    ensures GetPortFromJob(IntendedAlphaPolicy(apiVersion, kind, gang), PortDefaulted(spec)) == Ok(DefaultPort)
  {
    var cs := spec.template.containers;
    var d := WithDefaultPort(cs);
    DefaultPortPlaced(cs);
    var i := PortContainer(cs);
    var c :| c in cs && c.name == DefaultContainerName;
    assert FirstNamed(cs, DefaultContainerName).Some?;
    assert cs[i].ports == [];
    assert d[i].ports == [ContainerPort(DefaultPortName, DefaultPort)];
    assert PortAt(d, DefaultContainerName, DefaultPortName, i, 0);
    var r := GetPortFromJob(IntendedAlphaPolicy(apiVersion, kind, gang), PortDefaulted(spec));
    assert r.Ok?;
  }
}
