/** The XGBoostJob object the controllers read and update in place: its
    metadata, its replica-spec map, its run policy and its status. */
module Jobs {
  import opened Common
  import opened Api
  import opened Status

  class XGBoostJob {
    var meta: Meta
    var specs: map<string, ReplicaSpec>
    var runPolicy: RunPolicy
    /** Status.JobStatus of the object itself. */
    var status: JobStatus
    /** Whether the deletion timestamp is set. */
    var deleting: bool

    constructor (meta: Meta, specs: map<string, ReplicaSpec>, runPolicy: RunPolicy, status: JobStatus, deleting: bool)
      ensures this.meta == meta && this.specs == specs && this.runPolicy == runPolicy
      ensures this.status == status && this.deleting == deleting
    {
      this.meta := meta;
      this.specs := specs;
      this.runPolicy := runPolicy;
      this.status := status;
      this.deleting := deleting;
    }
  }
}
