/** The generic job controller's naming and ownership helpers, and its
    get-then-create/delete handling of the gang-scheduling objects
    (PodGroup and PodDisruptionBudget) against a store. */
module JobController {
  import opened Common
  import opened Api

  /** The cache key of an object: "namespace/name", or just the name when
      the namespace is empty. */
  function JobKey(m: Meta): string
  {
    if |m.namespace| > 0 then m.namespace + "/" + m.name else m.name
  }

  /** GenGeneralName: "<job>-<type>-<index>" with every slash turned into a
      dash (its source file is not part of this model). */
  function GenGeneralName(jobName: string, rtype: string, index: string): (r: string)
    ensures '/' !in r
    ensures |r| == |jobName| + |rtype| + |index| + 2
  {
    ReplaceSlashes(jobName + "-" + rtype + "-" + index)
  }

  /** GenOwnerReference: a controlling reference to obj that blocks its
      deletion while dependents exist. */
  function GenOwnerReference(policy: Policy, obj: Meta): (r: OwnerReference)
    ensures r.name == obj.name && r.uid == obj.uid
    ensures r.controller && r.blockOwnerDeletion
    ensures r.apiVersion == policy.apiVersion && r.kind == policy.kind
  {
    OwnerReference(policy.apiVersion, policy.kind, obj.name, obj.uid, true, true)
  }

  /** GenLabels: exactly the group-name label and the job-name label, the
      latter being the job name with slashes turned into dashes. */
  function GenLabels(policy: Policy, jobName: string): (r: map<string, string>)
    ensures r.Keys == {GroupNameLabel, JobNameLabel}
    ensures r[GroupNameLabel] == policy.groupNameLabelValue
    ensures r[JobNameLabel] == ReplaceSlashes(jobName)
  {
    map[GroupNameLabel := policy.groupNameLabelValue, JobNameLabel := ReplaceSlashes(jobName)]
  }

  /** The labels of a replica's pod or service: GenLabels, the lower-case
      type, the index, and job-role=master for a pod of the master role. */
  function ReplicaLabels(policy: Policy, jobName: string, rt: string, index: string, masterRole: bool): (r: map<string, string>)
    ensures r.Keys == {GroupNameLabel, JobNameLabel, ReplicaTypeLabel, ReplicaIndexLabel} +
                      (if masterRole then {JobRoleLabel} else {})
    ensures r[GroupNameLabel] == policy.groupNameLabelValue && r[JobNameLabel] == ReplaceSlashes(jobName)
    ensures r[ReplicaTypeLabel] == rt && r[ReplicaIndexLabel] == index
    ensures masterRole ==> r[JobRoleLabel] == "master"
  {
    var base := GenLabels(policy, jobName)[ReplicaTypeLabel := rt][ReplicaIndexLabel := index];
    if masterRole then base[JobRoleLabel := "master"] else base
  }

  /** A job name without slashes is its own job-name label value, so the
      PodDisruptionBudget selector {job-name: name} built by SyncPdb matches
      the labels GenLabels puts on the job's pods. */
  lemma JobNameLabelIsName(policy: Policy, jobName: string)
    requires '/' !in jobName
    ensures GenLabels(policy, jobName)[JobNameLabel] == jobName
  {
    var r := ReplaceSlashes(jobName);
    assert forall i :: 0 <= i < |jobName| ==> r[i] == jobName[i];
  }

  /** resolveControllerRef against the informer cache (namespace, name) ->
      job: nothing unless the kind matches, the name is cached and the
      cached job has the referenced UID. */
  function ResolveControllerRef(policy: Policy, cache: map<(string, string), Meta>, namespace: string,
                                ref: OwnerReference): (r: Option<Meta>)
    ensures ref.kind != policy.kind ==> r.None?
    ensures r.Some? <==> ref.kind == policy.kind && (namespace, ref.name) in cache &&
                         cache[(namespace, ref.name)].uid == ref.uid
    ensures r.Some? ==> r.value == cache[(namespace, ref.name)] && r.value.uid == ref.uid
  {
    if ref.kind != policy.kind then None
    else if (namespace, ref.name) !in cache then None
    else if cache[(namespace, ref.name)].uid != ref.uid then None
    else Some(cache[(namespace, ref.name)])
  }

  /** The owner reference a controller generates for a cached job resolves
      back to that job. */
  lemma OwnerReferenceResolves(policy: Policy, cache: map<(string, string), Meta>, job: Meta)
    requires (job.namespace, job.name) in cache && cache[(job.namespace, job.name)] == job
    ensures ResolveControllerRef(policy, cache, job.namespace, GenOwnerReference(policy, job)) == Some(job)
  {
  }

  // ---------------------------------------------------------------------
  // Gang-scheduling objects

  datatype PodGroup = PodGroup(name: string, ownerReferences: seq<OwnerReference>, minMember: int)

  datatype Pdb = Pdb(name: string, ownerReferences: seq<OwnerReference>, minAvailable: int,
                     selector: map<string, string>)

  /** The PodGroup SyncPodGroup creates for a job. */
  function NewPodGroup(policy: Policy, job: Meta, minAvailable: int): (g: PodGroup)
    ensures g.name == job.name && g.minMember == minAvailable
    ensures g.ownerReferences == [GenOwnerReference(policy, job)]
  {
    PodGroup(job.name, [GenOwnerReference(policy, job)], minAvailable)
  }

  /** The PodDisruptionBudget SyncPdb creates for a job. */
  function NewPdb(policy: Policy, job: Meta, minAvailable: int): (p: Pdb)
    ensures p.name == job.name && p.minAvailable == minAvailable
    ensures p.ownerReferences == [GenOwnerReference(policy, job)]
    ensures p.selector == map[JobNameLabel := job.name]
  {
    Pdb(job.name, [GenOwnerReference(policy, job)], minAvailable, map[JobNameLabel := job.name])
  }

  /** PodGroups and PodDisruptionBudgets by (namespace, name). Lookups
      fail with an error that is not NotFound when `readFails`; creations
      and deletions fail, changing nothing, when `writeFails`. */
  class GangStore {
    var podGroups: map<(string, string), PodGroup>
    var pdbs: map<(string, string), Pdb>
    const readFails: bool
    const writeFails: bool

    constructor (podGroups: map<(string, string), PodGroup>, pdbs: map<(string, string), Pdb>,
                 readFails: bool, writeFails: bool)
      ensures this.podGroups == podGroups && this.pdbs == pdbs
      ensures this.readFails == readFails && this.writeFails == writeFails
    {
      this.podGroups := podGroups;
      this.pdbs := pdbs;
      this.readFails := readFails;
      this.writeFails := writeFails;
    }

    function GetPodGroup(key: (string, string)): (r: Result<PodGroup>)
      reads this
      ensures r.Ok? <==> !readFails && key in podGroups
      ensures r.Ok? ==> r.value == podGroups[key]
      ensures r == Err(NotFound) <==> !readFails && key !in podGroups
    {
      if readFails then Err(Failure("store unavailable"))
      else if key in podGroups then Ok(podGroups[key])
      else Err(NotFound)
    }

    function GetPdb(key: (string, string)): (r: Result<Pdb>)
      reads this
      ensures r.Ok? <==> !readFails && key in pdbs
      ensures r.Ok? ==> r.value == pdbs[key]
      ensures r == Err(NotFound) <==> !readFails && key !in pdbs
    {
      if readFails then Err(Failure("store unavailable"))
      else if key in pdbs then Ok(pdbs[key])
      else Err(NotFound)
    }

    method CreatePodGroup(namespace: string, g: PodGroup) returns (r: Result<PodGroup>)
      modifies this`podGroups
      ensures !writeFails && (namespace, g.name) !in old(podGroups) ==>
                r == Ok(g) && podGroups == old(podGroups)[(namespace, g.name) := g]
      ensures writeFails || (namespace, g.name) in old(podGroups) ==> r.Err? && podGroups == old(podGroups)
    {
      if writeFails {
        r := Err(Failure("store unavailable"));
      } else if (namespace, g.name) in podGroups {
        r := Err(AlreadyExists);
      } else {
        podGroups := podGroups[(namespace, g.name) := g];
        r := Ok(g);
      }
    }

    method DeletePodGroupObject(key: (string, string)) returns (err: Option<Error>)
      modifies this`podGroups
      ensures !writeFails && key in old(podGroups) ==> err.None? && podGroups == old(podGroups) - {key}
      ensures writeFails || key !in old(podGroups) ==> err.Some? && podGroups == old(podGroups)
    {
      if writeFails {
        err := Some(Failure("store unavailable"));
      } else if key in podGroups {
        podGroups := podGroups - {key};
        err := None;
      } else {
        err := Some(NotFound);
      }
    }

    method CreatePdb(namespace: string, p: Pdb) returns (r: Result<Pdb>)
      modifies this`pdbs
      ensures !writeFails && (namespace, p.name) !in old(pdbs) ==>
                r == Ok(p) && pdbs == old(pdbs)[(namespace, p.name) := p]
      ensures writeFails || (namespace, p.name) in old(pdbs) ==> r.Err? && pdbs == old(pdbs)
    {
      if writeFails {
        r := Err(Failure("store unavailable"));
      } else if (namespace, p.name) in pdbs {
        r := Err(AlreadyExists);
      } else {
        pdbs := pdbs[(namespace, p.name) := p];
        r := Ok(p);
      }
    }
  }

  /** SyncPodGroup: an existing group is returned untouched; after any
      lookup error, NotFound or not, the job's group is created. */
  method SyncPodGroup(store: GangStore, policy: Policy, job: Meta, minAvailable: int) returns (r: Result<PodGroup>)
    modifies store`podGroups
    ensures !store.readFails && (job.namespace, job.name) in old(store.podGroups) ==>
              r == Ok(old(store.podGroups)[(job.namespace, job.name)]) && store.podGroups == old(store.podGroups)
    ensures !store.writeFails && (job.namespace, job.name) !in old(store.podGroups) ==>
              r == Ok(NewPodGroup(policy, job, minAvailable)) &&
              store.podGroups == old(store.podGroups)[(job.namespace, job.name) := NewPodGroup(policy, job, minAvailable)]
    ensures store.readFails && (job.namespace, job.name) in old(store.podGroups) ==>
              r.Err? && store.podGroups == old(store.podGroups)
    ensures store.writeFails && (job.namespace, job.name) !in old(store.podGroups) ==>
              r.Err? && store.podGroups == old(store.podGroups)
  {
    var existing := store.GetPodGroup((job.namespace, job.name));
    if existing.Ok? {
      return existing;
    }
    r := store.CreatePodGroup(job.namespace, NewPodGroup(policy, job, minAvailable));
  }

  /** DeletePodGroup: nothing to do when the group is not found; any other
      outcome of the lookup leads to a delete whose error is reported. */
  method DeletePodGroup(store: GangStore, job: Meta) returns (err: Option<Error>)
    modifies store`podGroups
    ensures !store.readFails && (job.namespace, job.name) !in old(store.podGroups) ==>
              err.None? && store.podGroups == old(store.podGroups)
    ensures !store.writeFails && (job.namespace, job.name) in old(store.podGroups) ==>
              err.None? && store.podGroups == old(store.podGroups) - {(job.namespace, job.name)}
    ensures store.readFails && (job.namespace, job.name) !in old(store.podGroups) ==>
              err.Some? && store.podGroups == old(store.podGroups)
    ensures store.writeFails && (job.namespace, job.name) in old(store.podGroups) ==>
              err.Some? && store.podGroups == old(store.podGroups)
  {
    var existing := store.GetPodGroup((job.namespace, job.name));
    if existing == Err(NotFound) {
      return None;
    }
    var derr := store.DeletePodGroupObject((job.namespace, job.name));
    if derr.Some? {
      return Some(Failure("unable to delete PodGroup"));
    }
    err := None;
  }

  /** The error SyncPdb returns for an existing budget: a plain error whose
      text is "AlreadyExists", not the API server's AlreadyExists status. */
  const PdbExists: Error := Failure("AlreadyExists")

  /** SyncPdb: an existing budget is returned together with the PdbExists
      error; any lookup error other than NotFound is returned; only
      NotFound leads to the creation of the job's budget. */
  method SyncPdb(store: GangStore, policy: Policy, job: Meta, minAvailable: int)
    returns (pdb: Option<Pdb>, err: Option<Error>)
    modifies store`pdbs
    ensures !store.readFails && (job.namespace, job.name) in old(store.pdbs) ==>
              pdb == Some(old(store.pdbs)[(job.namespace, job.name)]) && err == Some(PdbExists) &&
              store.pdbs == old(store.pdbs)
    ensures !store.readFails && !store.writeFails && (job.namespace, job.name) !in old(store.pdbs) ==>
              pdb == Some(NewPdb(policy, job, minAvailable)) && err.None? &&
              store.pdbs == old(store.pdbs)[(job.namespace, job.name) := NewPdb(policy, job, minAvailable)]
    ensures !store.readFails && store.writeFails && (job.namespace, job.name) !in old(store.pdbs) ==>
              err.Some? && store.pdbs == old(store.pdbs)
    ensures store.readFails ==> err.Some? && err != Some(PdbExists) && store.pdbs == old(store.pdbs)
  {
    var existing := store.GetPdb((job.namespace, job.name));
    if existing.Ok? {
      return Some(existing.value), Some(PdbExists);
    }
    if existing != Err(NotFound) {
      return None, Some(existing.error);
    }
    var created := store.CreatePdb(job.namespace, NewPdb(policy, job, minAvailable));
    if created.Ok? {
      pdb, err := Some(created.value), None;
    } else {
      pdb, err := None, Some(created.error);
    }
  }
}
