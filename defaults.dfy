/** Defaulting of an XGBoostJob (SetDefaults_XGBoostJob and its helpers):
    every step only fills in what is absent, on the job object in place.
    A Go map is ranged over in an unspecified order; where that order
    decides the outcome (which misspelt key is renamed) the model picks
    any candidate. */
module Defaults {
  import opened Common
  import opened Api
  import opened Jobs

  // ---------------------------------------------------------------------
  // setDefaultPort

  /** The first container named `name`, if any. */
  function FirstNamed(cs: seq<Container>, name: string): (r: Option<nat>)
    ensures r.Some? ==> r.value < |cs| && cs[r.value].name == name &&
                        forall k :: 0 <= k < r.value ==> cs[k].name != name
    ensures r.None? ==> forall k :: 0 <= k < |cs| ==> cs[k].name != name
    decreases |cs|
  {
    if cs == [] then None
    else if cs[0].name == name then Some(0)
    else match FirstNamed(cs[1..], name)
      case None => None
      case Some(k) => Some(k + 1)
  }

  /** The container the default port belongs to: the first default-named
      one, else the first one. */
  function PortContainer(cs: seq<Container>): (i: nat)
    requires |cs| > 0
    ensures i < |cs|
  {
    match FirstNamed(cs, DefaultContainerName)
    case Some(k) => k
    case None => 0
  }

  predicate HasPortNamed(ports: seq<ContainerPort>, name: string)
  {
    exists p :: p in ports && p.name == name
  }

  /** The containers after setDefaultPort. */
  function WithDefaultPort(cs: seq<Container>): (r: seq<Container>)
    requires |cs| > 0
  {
    var i := PortContainer(cs);
    if HasPortNamed(cs[i].ports, DefaultPortName) then cs
    else cs[i := cs[i].(ports := cs[i].ports + [ContainerPort(DefaultPortName, DefaultPort)])]
  }

  /** What setDefaultPort promises: the chosen container ends up with a port
      named DefaultPortName; {DefaultPortName, DefaultPort} is appended to it
      exactly when it had none; nothing else changes. */
  lemma DefaultPortPlaced(cs: seq<Container>)
    requires |cs| > 0
    ensures var r := WithDefaultPort(cs);
            var i := PortContainer(cs);
            |r| == |cs| && HasPortNamed(r[i].ports, DefaultPortName) &&
            (forall k :: 0 <= k < |cs| ==> r[k].name == cs[k].name && r[k].image == cs[k].image && r[k].env == cs[k].env) &&
            (forall k :: 0 <= k < |cs| && k != i ==> r[k] == cs[k]) &&
            (HasPortNamed(cs[i].ports, DefaultPortName) ==> r[i].ports == cs[i].ports) &&
            (!HasPortNamed(cs[i].ports, DefaultPortName) ==>
               r[i].ports == cs[i].ports + [ContainerPort(DefaultPortName, DefaultPort)])
  {
    var i := PortContainer(cs);
    if !HasPortNamed(cs[i].ports, DefaultPortName) {
      var p := ContainerPort(DefaultPortName, DefaultPort);
      assert p in WithDefaultPort(cs)[i].ports;
    }
  }

  /** A second setDefaultPort adds nothing. */
  lemma DefaultPortIdempotent(cs: seq<Container>)
    requires |cs| > 0
    ensures WithDefaultPort(WithDefaultPort(cs)) == WithDefaultPort(cs)
  {
    var r := WithDefaultPort(cs);
    DefaultPortPlaced(cs);
    assert forall k :: 0 <= k < |cs| ==> r[k].name == cs[k].name;
    FirstNamedByNames(cs, r, DefaultContainerName);
  }

  /** The search depends only on the names. */
  lemma {:induction false} FirstNamedByNames(a: seq<Container>, b: seq<Container>, name: string)
    requires |a| == |b| && forall k :: 0 <= k < |a| ==> a[k].name == b[k].name
    ensures FirstNamed(a, name) == FirstNamed(b, name)
    decreases |a|
  {
    if a != [] && a[0].name != name {
      FirstNamedByNames(a[1..], b[1..], name);
    }
  }

  /** The pod template spec with its containers passed through setDefaultPort. */
  function PortDefaulted(spec: ReplicaSpec): ReplicaSpec
    requires |spec.template.containers| > 0
  {
    spec.(template := spec.template.(containers := WithDefaultPort(spec.template.containers)))
  }

  /** setDefaultPort(&spec.Template.Spec) on the spec of rtype. It indexes
      the container list, so an empty list is a run-time panic in Go: the
      callers must supply at least one container. */
  method SetDefaultPort(job: XGBoostJob, rtype: string)
    requires rtype in job.specs && |job.specs[rtype].template.containers| > 0
    modifies job`specs
    ensures job.specs == old(job.specs)[rtype := PortDefaulted(old(job.specs)[rtype])]
  {
    var spec := job.specs[rtype];
    var cs := spec.template.containers;
    var index := 0;
    var i := 0;
    while i < |cs|
      invariant 0 <= i <= |cs|
      invariant forall k :: 0 <= k < i ==> cs[k].name != DefaultContainerName
    {
      if cs[i].name == DefaultContainerName {
        index := i;
        break;
      }
      i := i + 1;
    }
    assert index == PortContainer(cs);
    var ports := cs[index].ports;
    var hasJobPort := false;
    var j := 0;
    while j < |ports|
      invariant 0 <= j <= |ports|
      invariant forall k :: 0 <= k < j ==> ports[k].name != DefaultPortName
    {
      if ports[j].name == DefaultPortName {
        hasJobPort := true;
        break;
      }
      j := j + 1;
    }
    assert hasJobPort <==> HasPortNamed(ports, DefaultPortName);
    if !hasJobPort {
      var c := cs[index].(ports := ports + [ContainerPort(DefaultPortName, DefaultPort)]);
      job.specs := job.specs[rtype := spec.(template := spec.template.(containers := cs[index := c]))];
    }
  }

  // ---------------------------------------------------------------------
  // setDefaultReplicas

  /** The spec after setDefaultReplicas: nil Replicas become 1 and an unset
      restart policy becomes DefaultRestartPolicy; set values are kept. */
  function ReplicasDefaulted(spec: ReplicaSpec): (r: ReplicaSpec)
    ensures r.replicas.Some? && r.restartPolicy != RestartPolicyUnset
    ensures spec.replicas.Some? ==> r.replicas == spec.replicas
    ensures spec.replicas.None? ==> r.replicas == Some(1)
    ensures spec.restartPolicy != RestartPolicyUnset ==> r.restartPolicy == spec.restartPolicy
    ensures spec.restartPolicy == RestartPolicyUnset ==> r.restartPolicy == DefaultRestartPolicy
    ensures r.template == spec.template
  {
    var withReplicas := if spec.replicas.None? then spec.(replicas := Some(1)) else spec;
    if withReplicas.restartPolicy == RestartPolicyUnset then withReplicas.(restartPolicy := DefaultRestartPolicy)
    else withReplicas
  }

  /** setDefaultReplicas on the spec of rtype. */
  method SetDefaultReplicas(job: XGBoostJob, rtype: string)
    requires rtype in job.specs
    modifies job`specs
    ensures job.specs == old(job.specs)[rtype := ReplicasDefaulted(old(job.specs)[rtype])]
  {
    var spec := job.specs[rtype];
    if spec.replicas.None? {
      spec := spec.(replicas := Some(1));
    }
    if spec.restartPolicy == RestartPolicyUnset {
      spec := spec.(restartPolicy := DefaultRestartPolicy);
    }
    job.specs := job.specs[rtype := spec];
  }

  /** Both per-spec steps of SetDefaults_XGBoostJob, in their order. */
  function Defaulted(spec: ReplicaSpec): ReplicaSpec
    requires |spec.template.containers| > 0
  {
    PortDefaulted(ReplicasDefaulted(spec))
  }

  /** Defaulting a spec twice is defaulting it once. */
  lemma DefaultedIdempotent(spec: ReplicaSpec)
    requires |spec.template.containers| > 0
    ensures Defaulted(Defaulted(spec)) == Defaulted(spec)
  {
    var cs := spec.template.containers;
    DefaultPortIdempotent(cs);
    var once := Defaulted(spec);
    assert ReplicasDefaulted(once) == once;
    assert once.template.containers == WithDefaultPort(cs);
  }

  // ---------------------------------------------------------------------
  // setTypeNameToCamelCase

  /** The keys that name typ in another letter case. */
  predicate Misspells(t: string, typ: string)
  {
    EqualFold(t, typ) && t != typ
  }

  /** The map with key t moved to typ, keeping its spec. */
  function Rename(specs: map<string, ReplicaSpec>, t: string, typ: string): (r: map<string, ReplicaSpec>)
    requires t in specs
    ensures r.Keys == specs.Keys - {t} + {typ} && r[typ] == specs[t]
    ensures forall k :: k in specs && k != t && k != typ ==> r[k] == specs[k]
  {
    (specs - {t})[typ := specs[t]]
  }

  /** One setTypeNameToCamelCase: with no misspelt key the map is kept;
      otherwise exactly one misspelt key is moved to typ. */
  ghost predicate CamelCased(before: map<string, ReplicaSpec>, after: map<string, ReplicaSpec>, typ: string)
  {
    if forall t :: t in before ==> !Misspells(t, typ) then after == before
    else exists t :: t in before && Misspells(t, typ) && after == Rename(before, t, typ)
  }

  /** setTypeNameToCamelCase: the first misspelt key met while ranging over
      the map (in Go's unspecified order, so any of them) is moved. */
  method SetTypeNameToCamelCase(job: XGBoostJob, typ: string)
    modifies job`specs
    ensures CamelCased(old(job.specs), job.specs, typ)
    ensures |job.specs.Keys| <= |old(job.specs).Keys|
  {
    if exists t :: t in job.specs && Misspells(t, typ) {
      var t :| t in job.specs && Misspells(t, typ);
      var spec := job.specs[t];
      job.specs := Rename(job.specs, t, typ);
      assert job.specs.Keys <= old(job.specs).Keys - {t} + {typ};
      assert typ !in old(job.specs).Keys - {t} ==> |old(job.specs).Keys - {t}| < |old(job.specs).Keys|;
    }
  }

  /** The canonical name of one type never misspells the other. */
  lemma CanonicalNamesDiffer()
    ensures !EqualFold(WorkerType, MasterType)
  {
    assert ToLower(WorkerType)[0] == 'w';
    assert ToLower(MasterType)[0] == 'm';
  }

  /** A key misspells at most one of the two types. */
  lemma MisspellsOne(t: string)
    ensures !(Misspells(t, WorkerType) && Misspells(t, MasterType))
  {
    CanonicalNamesDiffer();
  }

  // ---------------------------------------------------------------------
  // SetDefaults_XGBoostJob

  /** Every spec has a container: setDefaultPort indexes the list. */
  predicate HasContainers(specs: map<string, ReplicaSpec>)
  {
    forall k :: k in specs ==> |specs[k].template.containers| > 0
  }

  function DefaultedAll(specs: map<string, ReplicaSpec>): (r: map<string, ReplicaSpec>)
    requires HasContainers(specs)
    ensures r.Keys == specs.Keys
  {
    map k | k in specs :: Defaulted(specs[k])
  }

  lemma DefaultedAllIdempotent(specs: map<string, ReplicaSpec>)
    requires HasContainers(specs)
    ensures HasContainers(DefaultedAll(specs)) && DefaultedAll(DefaultedAll(specs)) == DefaultedAll(specs)
  {
    var once := DefaultedAll(specs);
    forall k | k in once
      ensures |once[k].template.containers| > 0 && Defaulted(once[k]) == once[k]
    {
      DefaultedIdempotent(specs[k]);
    }
  }

  function CleanPodPolicyDefaulted(p: RunPolicy): (r: RunPolicy)
    ensures r.cleanPodPolicy.Some?
    ensures p.cleanPodPolicy.Some? ==> r == p
    ensures p.cleanPodPolicy.None? ==> r == p.(cleanPodPolicy := Some(CleanPodPolicyRunning))
  {
    if p.cleanPodPolicy.None? then p.(cleanPodPolicy := Some(CleanPodPolicyRunning)) else p
  }

  /** The spec maps SetDefaults_XGBoostJob can leave: Worker canonicalised,
      then Master, then every spec defaulted. */
  ghost predicate DefaultsResult(before: map<string, ReplicaSpec>, after: map<string, ReplicaSpec>)
  {
    exists afterWorker, afterMaster ::
      CamelCased(before, afterWorker, WorkerType) && CamelCased(afterWorker, afterMaster, MasterType) &&
      HasContainers(afterMaster) && after == DefaultedAll(afterMaster)
  }

  /** The body of the loop of SetDefaults_XGBoostJob, on one spec. */
  method DefaultSpec(job: XGBoostJob, rtype: string)
    requires rtype in job.specs && |job.specs[rtype].template.containers| > 0
    modifies job`specs
    ensures job.specs == old(job.specs)[rtype := Defaulted(old(job.specs)[rtype])]
  {
    SetDefaultReplicas(job, rtype);
    SetDefaultPort(job, rtype);
  }

  /** The loop of SetDefaults_XGBoostJob: both per-spec steps on every spec,
      in map order (the steps of different specs are independent). */
  method DefaultEverySpec(job: XGBoostJob)
    requires HasContainers(job.specs)
    modifies job`specs
    ensures job.specs == DefaultedAll(old(job.specs))
  {
    ghost var before := job.specs;
    var keys := job.specs.Keys;
    while keys != {}
      invariant keys <= before.Keys && job.specs.Keys == before.Keys
      invariant forall k :: k in before ==>
                  job.specs[k] == if k in keys then before[k] else Defaulted(before[k])
      decreases keys
    {
      var k :| k in keys;
      DefaultSpec(job, k);
      keys := keys - {k};
    }
  }

  /** SetDefaults_XGBoostJob. Go panics on a spec without containers, so
      callers must supply them. */
  method SetDefaults(job: XGBoostJob)
    requires HasContainers(job.specs)
    modifies job`specs, job`runPolicy
    ensures job.runPolicy == CleanPodPolicyDefaulted(old(job.runPolicy))
    ensures DefaultsResult(old(job.specs), job.specs)
  {
    if job.runPolicy.cleanPodPolicy.None? {
      job.runPolicy := job.runPolicy.(cleanPodPolicy := Some(CleanPodPolicyRunning));
    }
    ghost var before := job.specs;
    SetTypeNameToCamelCase(job, WorkerType);
    ghost var afterWorker := job.specs;
    CamelCasedKeepsContainers(before, afterWorker, WorkerType);
    SetTypeNameToCamelCase(job, MasterType);
    ghost var afterMaster := job.specs;
    CamelCasedKeepsContainers(afterWorker, afterMaster, MasterType);
    DefaultEverySpec(job);
  }

  lemma CamelCasedKeepsContainers(before: map<string, ReplicaSpec>, after: map<string, ReplicaSpec>, typ: string)
    requires HasContainers(before) && CamelCased(before, after, typ)
    ensures HasContainers(after)
  {
    if exists t :: t in before && Misspells(t, typ) {
      var t :| t in before && Misspells(t, typ) && after == Rename(before, t, typ);
    }
  }

  /** No key misspells typ: the canonical name, if present, is the only
      spelling. */
  predicate Canonical(specs: map<string, ReplicaSpec>, typ: string)
  {
    forall t :: t in specs ==> !Misspells(t, typ)
  }

  /** At most one key misspells typ. */
  predicate AtMostOneMisspelling(specs: map<string, ReplicaSpec>, typ: string)
  {
    forall t, u :: t in specs && u in specs && Misspells(t, typ) && Misspells(u, typ) ==> t == u
  }

  /** Canonicalising typ adds no key that misspells the other type. */
  lemma CamelCasedKeys(before: map<string, ReplicaSpec>, after: map<string, ReplicaSpec>, typ: string, other: string)
    requires CamelCased(before, after, typ)
    requires (typ == WorkerType && other == MasterType) || (typ == MasterType && other == WorkerType)
    ensures forall u :: u in after && Misspells(u, other) ==> u in before
    ensures forall u :: u in after && Misspells(u, typ) ==> u in before
  {
    CanonicalNamesDiffer();
    assert !Misspells(typ, typ);
    if exists t :: t in before && Misspells(t, typ) {
      var t :| t in before && Misspells(t, typ) && after == Rename(before, t, typ);
      assert after.Keys <= before.Keys + {typ};
    }
  }

  /** Renaming with at most one misspelling leaves none, and keeps the
      other type's misspellings at most one. */
  lemma CamelCasedSettles(before: map<string, ReplicaSpec>, after: map<string, ReplicaSpec>, typ: string, other: string)
    requires AtMostOneMisspelling(before, typ) && CamelCased(before, after, typ)
    requires (typ == WorkerType && other == MasterType) || (typ == MasterType && other == WorkerType)
    ensures Canonical(after, typ)
    ensures AtMostOneMisspelling(before, other) ==> AtMostOneMisspelling(after, other)
  {
    CamelCasedKeys(before, after, typ, other);
    if exists t :: t in before && Misspells(t, typ) {
      var t :| t in before && Misspells(t, typ) && after == Rename(before, t, typ);
      assert t !in after;
    }
  }

  /** A canonical map is left as it is. */
  lemma CamelCasedCanonical(before: map<string, ReplicaSpec>, after: map<string, ReplicaSpec>, typ: string)
    requires Canonical(before, typ) && CamelCased(before, after, typ)
    ensures after == before
  {
  }

  /** SetDefaults_XGBoostJob is idempotent on specs that misspell each
      replica type at most once: a second pass changes nothing. */
  lemma SetDefaultsIdempotent(s0: map<string, ReplicaSpec>, s1: map<string, ReplicaSpec>, s2: map<string, ReplicaSpec>)
    requires AtMostOneMisspelling(s0, WorkerType) && AtMostOneMisspelling(s0, MasterType)
    requires DefaultsResult(s0, s1) && DefaultsResult(s1, s2)
    ensures s2 == s1
  {
    var w, m :| CamelCased(s0, w, WorkerType) && CamelCased(w, m, MasterType) &&
                HasContainers(m) && s1 == DefaultedAll(m);
    CamelCasedSettles(s0, w, WorkerType, MasterType);
    CamelCasedSettles(w, m, MasterType, WorkerType);
    CamelCasedKeys(w, m, MasterType, WorkerType);
    assert Canonical(m, WorkerType);
    var w', m' :| CamelCased(s1, w', WorkerType) && CamelCased(w', m', MasterType) &&
                  HasContainers(m') && s2 == DefaultedAll(m');
    CamelCasedCanonical(s1, w', WorkerType);
    CamelCasedCanonical(w', m', MasterType);
    DefaultedAllIdempotent(m);
  }
}
