/** The API server as the reconciliation core sees it: a log of the write
    requests it receives. The reply to the k-th request is fixed in advance
    by `reply`, so every success, timeout and failure path can be reached. */
module Client {
  import opened Common
  import opened Api

  datatype Request =
    | CreatePodRequest(namespace: string, template: PodTemplate, owner: Option<OwnerReference>)
    | DeletePodRequest(namespace: string, name: string)
    | CreateServiceRequest(namespace: string, service: Service)
    | UpdateStatusRequest(namespace: string, name: string, status: StatusSnapshot)

  /** The content of a job status, as written to the status subresource. */
  datatype StatusSnapshot = StatusSnapshot(conditions: seq<JobCondition>, replicaStatuses: Option<map<string, ReplicaStatus>>,
                                           startTime: Option<int>, completionTime: Option<int>)

  class ApiClient {
    var requests: seq<Request>
    const reply: nat -> Option<Error>

    constructor (reply: nat -> Option<Error>)
      ensures requests == [] && this.reply == reply
    {
      requests := [];
      this.reply := reply;
    }

    /** Sends one request; the reply is the one reserved for its position. */
    method Send(r: Request) returns (err: Option<Error>)
      modifies this
      ensures requests == old(requests) + [r]
      ensures err == reply(|old(requests)|)
    {
      err := reply(|requests|);
      requests := requests + [r];
    }
  }

  /** How every create path reads the reply: a timeout means the object was
      created but its initialisation timed out, which counts as success. */
  function CreateOutcome(reply: Option<Error>): (err: Option<Error>)
    ensures err.None? <==> reply.None? || reply == Some(Timeout)
    ensures err.Some? ==> err == reply
  {
    if reply == Some(Timeout) then None else reply
  }
}
