/** ValidateAlphaOneXGBoostJobSpec: the admission rules of an XGBoostJob
    spec. The replica map is visited in Go's map order, which is not
    specified; it is a parameter here, and only which error is reported
    (not whether one is) depends on it. */
module Validation {
  import opened Common
  import opened Api
  import Util

  const NotValid: Error := Failure("XGBoostJobSpec is not valid")

  /** The error for a replica type that is neither Master nor Worker. */
  function BadReplicaType(rtype: string): Error
  {
    Failure("XGBoostReplicaType is " + rtype + " but must be one of [Master Worker]")
  }

  /** The rules one entry of the replica map must meet. */
  predicate EntryValid(rtype: string, value: Option<ReplicaSpec>)
  {
    value.Some? && |value.value.template.containers| > 0 &&
    (rtype == MasterType || rtype == WorkerType) &&
    (forall c :: c in value.value.template.containers ==> c.image != "") &&
    (exists c :: c in value.value.template.containers && c.name == DefaultContainerName) &&
    (rtype == MasterType ==> value.value.replicas.None? || value.value.replicas.value == 1)
  }

  /** The checks of one entry, in the order the loop body makes them. */
  function CheckEntry(rtype: string, value: Option<ReplicaSpec>): (r: Option<Error>)
    ensures r.None? <==> EntryValid(rtype, value)
    ensures r.Some? && value.Some? && |value.value.template.containers| > 0 ==>
              (r.value == BadReplicaType(rtype) <==> rtype != MasterType && rtype != WorkerType)
  {
    if value.None? || |value.value.template.containers| == 0 then Some(NotValid)
    else if rtype != MasterType && rtype != WorkerType then Some(BadReplicaType(rtype))
    else if exists c :: c in value.value.template.containers && c.image == "" then Some(NotValid)
    else if !exists c :: c in value.value.template.containers && c.name == DefaultContainerName then Some(NotValid)
    else if rtype == MasterType && value.value.replicas.Some? && value.value.replicas.value != 1 then Some(NotValid)
    else None
  }

  /** The loop over the entries, visited in the given order: the first
      failing entry's error. */
  function CheckEntries(specs: map<string, Option<ReplicaSpec>>, order: seq<string>): Option<Error>
    requires forall k :: k in order ==> k in specs
    decreases |order|
  {
    if order == [] then None
    else
      var r := CheckEntry(order[0], specs[order[0]]);
      if r.Some? then r else CheckEntries(specs, order[1..])
  }

  lemma {:induction false} CheckEntriesAll(specs: map<string, Option<ReplicaSpec>>, order: seq<string>)
    requires forall k :: k in order ==> k in specs
    ensures CheckEntries(specs, order).None? <==> forall k :: k in order ==> EntryValid(k, specs[k])
    decreases |order|
  {
    if order != [] {
      CheckEntriesAll(specs, order[1..]);
      assert forall k :: k in order <==> k == order[0] || k in order[1..];
    }
  }

  /** ValidateAlphaOneXGBoostJobSpec with the map visited in `order`. */
  function ValidateSpec(specs: SpecView, order: seq<string>): (r: Option<Error>)
    requires specs.Some? ==> Util.Enumerates(specs.value, order)
    ensures specs.None? ==> r == Some(NotValid)
  {
    if specs.None? then Some(NotValid)
    else
      var entries := CheckEntries(specs.value, order);
      if entries.Some? then entries
      else if MasterType !in specs.value then Some(NotValid)
      else None
  }

  /** A spec is accepted iff the map is present, every entry meets the
      rules, and a Master entry exists; the visiting order does not matter. */
  lemma ValidateSpecAccepts(specs: SpecView, order: seq<string>)
    requires specs.Some? ==> Util.Enumerates(specs.value, order)
    ensures ValidateSpec(specs, order).None? <==>
              specs.Some? && MasterType in specs.value &&
              forall k :: k in specs.value ==> EntryValid(k, specs.value[k])
  {
    if specs.Some? {
      CheckEntriesAll(specs.value, order);
    }
  }

  /** Whatever the order, one entry that breaks a rule makes the whole
      spec invalid. */
  lemma BadEntryRejected(specs: SpecView, order: seq<string>, rtype: string)
    requires specs.Some? ==> Util.Enumerates(specs.value, order)
    requires specs.Some? && rtype in specs.value && !EntryValid(rtype, specs.value[rtype])
    ensures ValidateSpec(specs, order).Some?
  {
    ValidateSpecAccepts(specs, order);
  }
}
