/** The mutable job status shared by the generic job controller: the
    condition list and the per-replica-type counters, with the two helpers
    that reset and bump the counters while pods are reconciled. */
module Status {
  import opened Common
  import opened Api
  import opened Conditions

  /** A job's status. `replicaStatuses` is None while the Go map is nil. */
  class JobStatus {
    var conditions: seq<JobCondition>
    var replicaStatuses: Option<map<string, ReplicaStatus>>
    var startTime: Option<int>
    var completionTime: Option<int>

    constructor (conditions: seq<JobCondition>, replicaStatuses: Option<map<string, ReplicaStatus>>,
                 startTime: Option<int>, completionTime: Option<int>)
      ensures this.conditions == conditions && this.replicaStatuses == replicaStatuses
      ensures this.startTime == startTime && this.completionTime == completionTime
    {
      this.conditions := conditions;
      this.replicaStatuses := replicaStatuses;
      this.startTime := startTime;
      this.completionTime := completionTime;
    }
  }

  /** UpdateJobConditions: builds a True condition stamped `now` and sets it;
      it never reports an error. */
  method UpdateJobConditions(status: JobStatus, t: ConditionType, reason: string, message: string, now: int)
    returns (err: Option<Error>)
    modifies status`conditions
    ensures err == None
    ensures status.conditions == SetCondition(old(status.conditions), NewCondition(t, reason, message, now))
  {
    status.conditions := SetCondition(status.conditions, NewCondition(t, reason, message, now));
    err := None;
  }

  // ---------------------------------------------------------------------
  // Per-replica counters

  const Zero: ReplicaStatus := ReplicaStatus(0, 0, 0)

  /** The counter map with a nil map read as empty. */
  function CountersOf(m: Option<map<string, ReplicaStatus>>): map<string, ReplicaStatus>
  {
    if m.Some? then m.value else map[]
  }

  /** initializeReplicaStatuses: creates the map if it is nil and resets the
      entry of rtype to all zeros; other entries are kept. */
  method InitializeReplicaStatuses(status: JobStatus, rtype: string)
    modifies status`replicaStatuses
    ensures status.replicaStatuses == Some(CountersOf(old(status.replicaStatuses))[rtype := Zero])
  {
    var m := if status.replicaStatuses.None? then map[] else status.replicaStatuses.value;
    status.replicaStatuses := Some(m[rtype := Zero]);
  }

  function Total(rs: ReplicaStatus): int
  {
    rs.active + rs.succeeded + rs.failed
  }

  /** The counters after observing one pod in the given phase: Running bumps
      Active, Succeeded bumps Succeeded, Failed bumps Failed, and Pending or
      Unknown changes nothing. */
  function Observe(rs: ReplicaStatus, phase: PodPhase): (r: ReplicaStatus)
    ensures r.active >= rs.active && r.succeeded >= rs.succeeded && r.failed >= rs.failed
    ensures r.active > rs.active <==> phase == PodRunning
    ensures r.succeeded > rs.succeeded <==> phase == PodSucceeded
    ensures r.failed > rs.failed <==> phase == PodFailed
    ensures Total(r) == Total(rs) + (if phase == PodPending || phase == PodUnknown then 0 else 1)
  {
    match phase
    case PodRunning => rs.(active := rs.active + 1)
    case PodSucceeded => rs.(succeeded := rs.succeeded + 1)
    case PodFailed => rs.(failed := rs.failed + 1)
    case _ => rs
  }

  /** updateJobReplicaStatuses: the rtype entry observes the pod's phase.
      The Go code dereferences the entry, so it must exist. */
  method UpdateJobReplicaStatuses(status: JobStatus, rtype: string, pod: Pod)
    requires status.replicaStatuses.Some? && rtype in status.replicaStatuses.value
    modifies status`replicaStatuses
    ensures status.replicaStatuses.Some?
    ensures status.replicaStatuses.value ==
            old(status.replicaStatuses.value)[rtype := Observe(old(status.replicaStatuses.value[rtype]), pod.phase)]
  {
    var m := status.replicaStatuses.value;
    var rs := m[rtype];
    match pod.phase {
      case PodRunning => rs := rs.(active := rs.active + 1);
      case PodSucceeded => rs := rs.(succeeded := rs.succeeded + 1);
      case PodFailed => rs := rs.(failed := rs.failed + 1);
      case _ =>
    }
    status.replicaStatuses := Some(m[rtype := rs]);
  }

  /** Observing a sequence of phases in order. */
  function ObserveAll(rs: ReplicaStatus, phases: seq<PodPhase>): ReplicaStatus
    decreases |phases|
  {
    if phases == [] then rs else Observe(ObserveAll(rs, phases[..|phases| - 1]), phases[|phases| - 1])
  }

  function CountPhase(phases: seq<PodPhase>, p: PodPhase): (n: nat)
    ensures n <= |phases|
    decreases |phases|
  {
    if phases == [] then 0
    else CountPhase(phases[..|phases| - 1], p) + (if phases[|phases| - 1] == p then 1 else 0)
  }

  /** Starting from zero, each counter ends up as the number of observed
      pods in its phase, and the total never exceeds the number of pods. */
  lemma {:induction false} ObserveAllCounts(phases: seq<PodPhase>)
    ensures ObserveAll(Zero, phases) ==
            ReplicaStatus(CountPhase(phases, PodRunning), CountPhase(phases, PodSucceeded), CountPhase(phases, PodFailed))
    ensures Total(ObserveAll(Zero, phases)) <= |phases|
    decreases |phases|
  {
    if phases != [] {
      var init := phases[..|phases| - 1];
      ObserveAllCounts(init);
      if phases[|phases| - 1] == PodRunning {
        assert Total(ObserveAll(Zero, phases)) == Total(ObserveAll(Zero, init)) + 1;
      }
    }
  }
}
