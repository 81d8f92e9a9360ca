/** The generic job controller's service reconciliation for one replica
    type: select the type's services, bucket them into replica slots and
    create one headless service for every empty slot. Services are never
    deleted here, and a slot holding several services is only warned
    about. */
module Services {
  import opened Common
  import opened Api
  import opened Tracker
  import opened Client
  import opened JobController
  import opened Slots
  import opened Ports

  function ServiceLabelsOf(s: Service): map<string, string>
  {
    s.meta.labels
  }

  /** The slots of one replica type: the services whose replica-type label
      is the lower-case type, bucketed by index. */
  function ServiceSlots(services: seq<Service>, rtype: string, replicas: nat): seq<seq<Service>>
  {
    Slices(OfType(services, ServiceLabelsOf, ToLower(rtype)), ServiceLabelsOf, replicas)
  }

  // ---------------------------------------------------------------------
  // Building the service of one slot

  const PortNotFound: Error := Failure("failed to find the port")

  /** GetPortFromJob: the first port, in a container with the controller's
      default container name, whose name is the controller's
      GetDefaultContainerPortNumber() string; an error when there is none. */
  function GetPortFromJob(policy: Policy, spec: ReplicaSpec): (r: Result<int>)
    ensures r.Err? <==> NoPort(spec.template.containers, policy.defaultContainerName, policy.defaultContainerPortNumber)
    ensures r.Err? ==> r.error == PortNotFound
    ensures r.Ok? ==>
              IsFirstPort(spec.template.containers, policy.defaultContainerName, policy.defaultContainerPortNumber, r.value)
  {
    FindPortFirst(spec.template.containers, policy.defaultContainerName, policy.defaultContainerPortNumber);
    match FindPort(spec.template.containers, policy.defaultContainerName, policy.defaultContainerPortNumber)
    case Some(p) => Ok(p)
    case None => Err(PortNotFound)
  }

  /** The service CreateNewService builds for a slot: headless, selecting
      exactly the pods carrying its own labels, with one port named after
      the controller's port-name string, and named like the slot's pod. */
  function NewService(policy: Policy, job: Meta, rt: string, index: string, port: int): (s: Service)
    ensures s.clusterIP == "None"
    ensures s.meta.labels == ReplicaLabels(policy, job.name, rt, index, false) && s.selector == s.meta.labels
    ensures s.ports == [ServicePort(policy.defaultContainerPortNumber, port)]
    ensures s.meta.name == GenGeneralName(job.name, rt, index)
    ensures s.ownerReferences == []
  {
    var labels := ReplicaLabels(policy, job.name, rt, index, false);
    Service(Meta("", GenGeneralName(job.name, rt, index), "", labels), [], "None", labels,
            [ServicePort(policy.defaultContainerPortNumber, port)])
  }

  /** The copy of a service that is sent to the API server: it lives in the
      given namespace and is controlled by the owner. (getServiceFromTemplate
      and validateControllerRef, which make and check this copy, are not
      part of this model; the reference built by GenOwnerReference is taken
      as valid.) */
  function WithOwner(service: Service, namespace: string, owner: OwnerReference): (s: Service)
    ensures s.meta.namespace == namespace && s.ownerReferences == [owner]
    ensures s.meta.labels == service.meta.labels && s.meta.name == service.meta.name
    ensures s.selector == service.selector && s.ports == service.ports && s.clusterIP == service.clusterIP
  {
    service.(meta := service.meta.(namespace := namespace), ownerReferences := [owner])
  }

  /** The create request of slot `index` once the port is known. */
  function ServiceCreation(policy: Policy, job: Meta, rt: string, index: string, port: int): Request
  {
    CreateServiceRequest(job.namespace,
                         WithOwner(NewService(policy, job, rt, index, port), job.namespace, GenOwnerReference(policy, job)))
  }

  // ---------------------------------------------------------------------
  // Sending it

  const NoLabels: Error := Failure("unable to create Services, no labels")
  const CreateFailed: Error := Failure("unable to create services")

  /** How createServices reports a failed create: as a new error built with
      %v from the API error, so the kind of the API error (a timeout among
      them) is lost. */
  function WrapCreateError(reply: Option<Error>): (err: Option<Error>)
    ensures err.Some? <==> reply.Some?
    ensures err.Some? ==> err.value.Failure? && err.value != Timeout
  {
    if reply.Some? then Some(CreateFailed) else None
  }

  /** createServices: a service without labels would select everything and
      is refused before anything is sent; otherwise the owned copy is sent
      and a failure comes back wrapped. */
  method CreateServices(namespace: string, service: Service, owner: OwnerReference, client: ApiClient)
    returns (err: Option<Error>)
    modifies client
    ensures |service.meta.labels| == 0 ==> err == Some(NoLabels) && client.requests == old(client.requests)
    ensures |service.meta.labels| > 0 ==>
              client.requests == old(client.requests) + [CreateServiceRequest(namespace, WithOwner(service, namespace, owner))] &&
              err == WrapCreateError(client.reply(|old(client.requests)|))
  {
    if |service.meta.labels| == 0 {
      return Some(NoLabels);
    }
    var reply := client.Send(CreateServiceRequest(namespace, WithOwner(service, namespace, owner)));
    if reply.Some? {
      return Some(CreateFailed);
    }
    err := None;
  }

  /** The result CreateNewService reports for the reply to its create
      request, as written: its timeout test looks at the error createServices
      has already wrapped, so it never fires and every failed create, a
      timeout included, is reported. */
  function ServiceOutcome(reply: Option<Error>): (err: Option<Error>)
    ensures err.Some? <==> reply.Some?
  {
    CreateOutcome(WrapCreateError(reply))
  }

  /** The result the timeout test in CreateNewService is evidently meant to
      give, the one createNewPod gives for pods: a timeout means the service
      exists but is still initialising and counts as success, and every other
      failure is returned as it came. */
  function IntendedServiceOutcome(reply: Option<Error>): (err: Option<Error>)
    ensures err.None? <==> reply.None? || reply == Some(Timeout)
    ensures err.Some? ==> err == reply
  {
    CreateOutcome(reply)
  }

  /** The two disagree exactly on a timeout. */
  lemma ServiceTimeoutReported(reply: Option<Error>)
    ensures ServiceOutcome(reply).Some? != IntendedServiceOutcome(reply).Some? <==> reply == Some(Timeout)
  {
  }

  /** CreateNewService: the services key awaits one creation before the port
      is looked up, so a missing port returns an error with the expectation
      already recorded and nothing sent; otherwise the service is sent. */
  method CreateNewService(policy: Policy, job: Meta, rtype: string, spec: ReplicaSpec, index: string,
                          tracker: ExpectationTracker, client: ApiClient)
    returns (err: Option<Error>)
    modifies tracker, client
    ensures tracker.records == old(tracker.records)[ServicesKey(JobKey(job), ToLower(rtype)) := Record(1, 0)]
    ensures tracker.expired == old(tracker.expired) - {ServicesKey(JobKey(job), ToLower(rtype))}
    ensures var port := GetPortFromJob(policy, spec);
            (port.Err? ==> err == Some(PortNotFound) && client.requests == old(client.requests)) &&
            (port.Ok? ==> client.requests == old(client.requests) + [ServiceCreation(policy, job, ToLower(rtype), index, port.value)] &&
                          err == ServiceOutcome(client.reply(|old(client.requests)|)))
  {
    var rt := ToLower(rtype);
    tracker.ExpectCreations(ServicesKey(JobKey(job), rt), 1);
    var labels := GenLabels(policy, job.name);
    labels := labels[ReplicaTypeLabel := rt];
    labels := labels[ReplicaIndexLabel := index];
    var port := GetPortFromJob(policy, spec);
    if port.Err? {
      return Some(port.error);
    }
    var service := Service(Meta("", GenGeneralName(job.name, rt, index), "", labels), [], "None", labels,
                           [ServicePort(policy.defaultContainerPortNumber, port.value)]);
    assert service == NewService(policy, job, rt, index, port.value);
    err := CreateServices(job.namespace, service, GenOwnerReference(policy, job), client);
    if err.Some? && err.value == Timeout {
      return None;
    }
  }

  // ---------------------------------------------------------------------
  // ReconcileServices

  /** The requests one slot leads to: a creation for an empty slot whose
      port is found, nothing otherwise. */
  function ServiceSlotRequests(policy: Policy, job: Meta, rtype: string, spec: ReplicaSpec,
                               slot: seq<Service>, index: nat): seq<Request>
  {
    if |slot| == 0 then
      match GetPortFromJob(policy, spec)
      case Ok(p) => [ServiceCreation(policy, job, ToLower(rtype), Itoa(index), p)]
      case Err(_) => []
    else []
  }

  /** The requests of the first k slots, in slot order. */
  function PlannedServiceRequests(policy: Policy, job: Meta, rtype: string, spec: ReplicaSpec,
                                  slots: seq<seq<Service>>, k: nat): seq<Request>
    requires k <= |slots|
  {
    if k == 0 then []
    else PlannedServiceRequests(policy, job, rtype, spec, slots, k - 1) +
         ServiceSlotRequests(policy, job, rtype, spec, slots[k - 1], k - 1)
  }

  /** ReconcileServices never deletes: it plans one creation per empty slot
      when the port is found and none at all when it is not. */
  lemma {:induction false} PlannedServicesAreCreations(policy: Policy, job: Meta, rtype: string, spec: ReplicaSpec,
                                                       slots: seq<seq<Service>>, k: nat)
    requires k <= |slots|
    ensures forall r :: r in PlannedServiceRequests(policy, job, rtype, spec, slots, k) ==> r.CreateServiceRequest?
    ensures |PlannedServiceRequests(policy, job, rtype, spec, slots, k)| ==
            if GetPortFromJob(policy, spec).Ok? then EmptyCount(slots, k) else 0
  {
    if k > 0 {
      PlannedServicesAreCreations(policy, job, rtype, spec, slots, k - 1);
    }
  }

  /** One iteration of ReconcileServices: an empty slot gets its service,
      any other slot leads to nothing. */
  method ReconcileServiceSlot(policy: Policy, job: Meta, rtype: string, spec: ReplicaSpec, slot: seq<Service>,
                              index: nat, tracker: ExpectationTracker, client: ApiClient)
    returns (err: Option<Error>)
    modifies tracker, client
    ensures client.requests == old(client.requests) + ServiceSlotRequests(policy, job, rtype, spec, slot, index)
    ensures tracker.records == if |slot| == 0 then old(tracker.records)[ServicesKey(JobKey(job), ToLower(rtype)) := Record(1, 0)]
                               else old(tracker.records)
    ensures tracker.expired == if |slot| == 0 then old(tracker.expired) - {ServicesKey(JobKey(job), ToLower(rtype))}
                               else old(tracker.expired)
    ensures |slot| == 0 && err.None? ==> GetPortFromJob(policy, spec).Ok?
    ensures |slot| != 0 ==> err.None?
  {
    if |slot| == 0 {
      err := CreateNewService(policy, job, rtype, spec, Itoa(index), tracker, client);
    } else {
      err := None;
    }
  }

  /** The loop of ReconcileServices over the slots of one replica type.
      `done` is the number of slots handled: all of them on success, and up
      to and including the failing slot on an error. */
  method ReconcileServiceSlots(policy: Policy, job: Meta, rtype: string, spec: ReplicaSpec, slots: seq<seq<Service>>,
                               tracker: ExpectationTracker, client: ApiClient)
    returns (err: Option<Error>, ghost done: nat)
    modifies tracker, client
    ensures done <= |slots|
    ensures client.requests == old(client.requests) + PlannedServiceRequests(policy, job, rtype, spec, slots, done)
    ensures tracker.records == RecordsAfter(old(tracker.records), ServicesKey(JobKey(job), ToLower(rtype)), slots, done)
    ensures tracker.expired == ExpiredAfter(old(tracker.expired), ServicesKey(JobKey(job), ToLower(rtype)), slots, done)
    ensures err.None? ==> done == |slots| && (GetPortFromJob(policy, spec).Ok? || EmptyCount(slots, |slots|) == 0)
    ensures err.Some? ==> 0 < done
  {
    ghost var key := ServicesKey(JobKey(job), ToLower(rtype));
    var index := 0;
    done := 0;
    err := None;
    while index < |slots| && err.None?
      invariant 0 <= index <= |slots| && done == index
      invariant client.requests == old(client.requests) + PlannedServiceRequests(policy, job, rtype, spec, slots, index)
      invariant tracker.records == RecordsAfter(old(tracker.records), key, slots, index)
      invariant tracker.expired == ExpiredAfter(old(tracker.expired), key, slots, index)
      invariant err.None? ==> GetPortFromJob(policy, spec).Ok? || EmptyCount(slots, index) == 0
      invariant err.Some? ==> 0 < index
    {
      ghost var step := ServiceSlotRequests(policy, job, rtype, spec, slots[index], index);
      assert PlannedServiceRequests(policy, job, rtype, spec, slots, index + 1) ==
             PlannedServiceRequests(policy, job, rtype, spec, slots, index) + step;
      ConcatAssoc(old(client.requests), PlannedServiceRequests(policy, job, rtype, spec, slots, index), step);
      RecordsStep(old(tracker.records), old(tracker.expired), key, slots, index);
      err := ReconcileServiceSlot(policy, job, rtype, spec, slots[index], index, tracker, client);
      index := index + 1;
      done := index;
    }
  }

  /** ReconcileServices for one replica type. The slots are the services of
      the type bucketed by index. The requests sent are the planned requests
      of the first `done` slots, which on success are all of them; success
      with an empty slot means the port was found, so PlannedServicesAreCreations
      counts one creation per empty slot. The services key awaits one
      creation iff an empty slot was reached. A selector error comes first
      and changes nothing; it is the only error with no slot handled. */
  method ReconcileServices(policy: Policy, job: Meta, services: seq<Service>, rtype: string, spec: ReplicaSpec,
                           tracker: ExpectationTracker, client: ApiClient)
    returns (err: Option<Error>, ghost slots: seq<seq<Service>>, ghost done: nat)
    requires spec.replicas.Some? && spec.replicas.value >= 0
    modifies tracker, client
    ensures slots == ServiceSlots(services, rtype, spec.replicas.value)
    ensures done <= |slots|
    ensures client.requests == old(client.requests) + PlannedServiceRequests(policy, job, rtype, spec, slots, done)
    ensures tracker.records == RecordsAfter(old(tracker.records), ServicesKey(JobKey(job), ToLower(rtype)), slots, done)
    ensures tracker.expired == ExpiredAfter(old(tracker.expired), ServicesKey(JobKey(job), ToLower(rtype)), slots, done)
    ensures err.None? ==> done == |slots| && (GetPortFromJob(policy, spec).Ok? || EmptyCount(slots, |slots|) == 0)
    ensures err.Some? && done == 0 <==> SelectorFails(services, ToLower(rtype))
  {
    var rt := ToLower(rtype);
    slots := ServiceSlots(services, rtype, spec.replicas.value);
    var filtered := FilterForReplicaType(services, ServiceLabelsOf, rt);
    if filtered.Err? {
      return Some(filtered.error), slots, 0;
    }
    var serviceSlices := GetSlices(filtered.value, ServiceLabelsOf, spec.replicas.value);
    err, done := ReconcileServiceSlots(policy, job, rtype, spec, serviceSlices, tracker, client);
  }

  /** The service created for slot i, once observed, fills exactly that
      slot: the next pass finds one service there and creates nothing. */
  lemma CreatedServiceFillsItsSlot(policy: Policy, job: Meta, rtype: string, services: seq<Service>,
                                   replicas: nat, i: nat, port: int)
    requires i < replicas && i <= MaxInt64
    ensures var created := ServiceCreation(policy, job, ToLower(rtype), Itoa(i), port).service;
            var before := ServiceSlots(services, rtype, replicas);
            var after := ServiceSlots(services + [created], rtype, replicas);
            after[i] == before[i] + [created] &&
            forall j :: 0 <= j < replicas && j != i ==> after[j] == before[j]
  {
    var created := ServiceCreation(policy, job, ToLower(rtype), Itoa(i), port).service;
    AtoiItoa(i);
    assert IndexOf(ServiceLabelsOf(created)) == Some(i);
    SlotsGrow(services, ServiceLabelsOf, ToLower(rtype), replicas, created, i);
  }
}
