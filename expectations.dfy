/** The XGBoostJob controller's use of the expectation tracker: the gate
    that lets a reconcile pass through when ANY of the job's pods or
    services keys is satisfied, and the two callbacks that record an
    observed creation or deletion of a dependent pod or service. */
module Expectations {
  import opened Common
  import opened Api
  import opened Tracker
  import opened JobController

  /** Some replica type of the job has a satisfied pods key or a satisfied
      services key. */
  ghost predicate AnySatisfied(tracker: ExpectationTracker, jobKey: string, specs: map<string, ReplicaSpec>)
    reads tracker
  {
    exists rt :: rt in specs && (tracker.Satisfied(PodsKey(jobKey, rt)) || tracker.Satisfied(ServicesKey(jobKey, rt)))
  }

  /** satisfiedExpectations: an OR over the replica types, in map order (a
      job whose key cannot be built is not part of this model). */
  method SatisfiedExpectations(tracker: ExpectationTracker, job: Meta, specs: map<string, ReplicaSpec>)
    returns (satisfied: bool)
    ensures satisfied <==> AnySatisfied(tracker, JobKey(job), specs)
    ensures specs == map[] ==> !satisfied
  {
    var key := JobKey(job);
    satisfied := false;
    var rest := specs.Keys;
    while rest != {}
      invariant rest <= specs.Keys
      invariant satisfied <==>
                  exists rt :: rt in specs && rt !in rest &&
                               (tracker.Satisfied(PodsKey(key, rt)) || tracker.Satisfied(ServicesKey(key, rt)))
      decreases rest
    {
      var rtype :| rtype in rest;
      satisfied := satisfied || tracker.Satisfied(PodsKey(key, rtype));
      satisfied := satisfied || tracker.Satisfied(ServicesKey(key, rtype));
      rest := rest - {rtype};
    }
  }

  /** The expectation key a dependent's observation is recorded under: the
      pods key built from the dependent's OWN key and its replica-type label
      (the empty string when the label is missing), for services too. */
  function DependentKey(dependent: Meta): string
  {
    var rtype := if ReplicaTypeLabel in dependent.labels then dependent.labels[ReplicaTypeLabel] else "";
    PodsKey(JobKey(dependent), rtype)
  }

  /** onDependentCreateFunc: when the reconciler is the XGBoostJob one, one
      creation is observed on the dependent's key; the event always passes. */
  method OnDependentCreate(isXGBoostReconciler: bool, dependent: Meta, tracker: ExpectationTracker)
    returns (pass: bool)
    modifies tracker
    ensures pass
    ensures !isXGBoostReconciler ==> tracker.records == old(tracker.records)
    ensures isXGBoostReconciler && DependentKey(dependent) in old(tracker.records) ==>
              tracker.records == old(tracker.records)[DependentKey(dependent) :=
                                   old(tracker.records)[DependentKey(dependent)].(add := old(tracker.records)[DependentKey(dependent)].add - 1)]
    ensures DependentKey(dependent) !in old(tracker.records) ==> tracker.records == old(tracker.records)
    ensures tracker.expired == old(tracker.expired)
  {
    if !isXGBoostReconciler {
      return true;
    }
    var rtype := if ReplicaTypeLabel in dependent.labels then dependent.labels[ReplicaTypeLabel] else "";
    var key := JobKey(dependent);
    tracker.CreationObserved(PodsKey(key, rtype));
    pass := true;
  }

  /** onDependentDeleteFunc: the same, observing one deletion. */
  method OnDependentDelete(isXGBoostReconciler: bool, dependent: Meta, tracker: ExpectationTracker)
    returns (pass: bool)
    modifies tracker
    ensures pass
    ensures !isXGBoostReconciler ==> tracker.records == old(tracker.records)
    ensures isXGBoostReconciler && DependentKey(dependent) in old(tracker.records) ==>
              tracker.records == old(tracker.records)[DependentKey(dependent) :=
                                   old(tracker.records)[DependentKey(dependent)].(del := old(tracker.records)[DependentKey(dependent)].del - 1)]
    ensures DependentKey(dependent) !in old(tracker.records) ==> tracker.records == old(tracker.records)
    ensures tracker.expired == old(tracker.expired)
  {
    if !isXGBoostReconciler {
      return true;
    }
    var rtype := if ReplicaTypeLabel in dependent.labels then dependent.labels[ReplicaTypeLabel] else "";
    var key := JobKey(dependent);
    tracker.DeletionObserved(PodsKey(key, rtype));
    pass := true;
  }

  /** Two pods keys are equal only when built from the same object key and
      the same lower-case type, as long as the types carry no slash. */
  lemma PodsKeyInjective(a: string, r: string, b: string, s: string)
    requires '/' !in ToLower(r) && '/' !in ToLower(s)
    ensures PodsKey(a, r) == PodsKey(b, s) ==> a == b && ToLower(r) == ToLower(s)
  {
    var ka := PodsKey(a, r);
    var kb := PodsKey(b, s);
    if ka == kb {
      var lr := ToLower(r);
      var ls := ToLower(s);
      SlashPositions(a, lr);
      SlashPositions(b, ls);
      if |a| < |b| {
        assert false;
      } else if |b| < |a| {
        assert false;
      }
      assert a == ka[..|a|] == kb[..|b|] == b;
      assert lr == ka[|a| + 1..|ka| - 5] == kb[|b| + 1..|kb| - 5] == ls;
    }
  }

  /** In a pods key whose type has no slash, the slash that ends the object
      key is the last one before "/pods". */
  lemma SlashPositions(a: string, lr: string)
    requires '/' !in lr
    ensures var k := a + "/" + lr + "/pods";
            k[|a|] == '/' && (forall i :: |a| < i < |k| - 5 ==> k[i] != '/') &&
            k[..|a|] == a && k[|a| + 1..|k| - 5] == lr
  {
    var k := a + "/" + lr + "/pods";
    forall i | |a| < i < |k| - 5 ensures k[i] != '/' {
      assert k[i] == lr[i - |a| - 1];
    }
  }

  /** The pod or service of a slot (named GenGeneralName(job, type, index))
      never records its observation on one of its job's pods keys: the two
      object keys differ in length, so the job's records are only ever
      reset by a new expectation or by expiry. */
  lemma ObservationMissesJob(job: Meta, dependent: Meta, rt: string, index: string, jobType: string)
    requires dependent.namespace == job.namespace && dependent.name == GenGeneralName(job.name, rt, index)
    requires '/' !in ToLower(jobType)
    requires ReplicaTypeLabel in dependent.labels && '/' !in ToLower(dependent.labels[ReplicaTypeLabel])
    ensures DependentKey(dependent) != PodsKey(JobKey(job), jobType)
  {
    PodsKeyInjective(JobKey(dependent), dependent.labels[ReplicaTypeLabel], JobKey(job), jobType);
    assert |JobKey(dependent)| > |JobKey(job)|;
  }
}
