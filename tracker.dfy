/** The controller-expectations tracker the job controllers consult before
    acting (its own source is not part of this model). Each key carries the
    number of creations and deletions still awaited; a key is satisfied when
    it has no record, when nothing more is awaited, or when its record has
    expired. Expiry is driven by a clock and is modelled as a set of keys. */
module Tracker {
  import opened Common
  import opened Slots

  datatype Record = Record(add: int, del: int)

  class ExpectationTracker {
    var records: map<string, Record>
    var expired: set<string>

    constructor ()
      ensures records == map[] && expired == {}
    {
      records := map[];
      expired := {};
    }

    /** SatisfiedExpectations(key) */
    predicate Satisfied(key: string)
      reads this
    {
      key !in records || (records[key].add <= 0 && records[key].del <= 0) || key in expired
    }

    /** ExpectCreations(key, n): a fresh record awaiting n creations and no
        deletions; a fresh record has not expired. */
    method ExpectCreations(key: string, n: int)
      modifies this
      ensures records == old(records)[key := Record(n, 0)]
      ensures expired == old(expired) - {key}
    {
      records := records[key := Record(n, 0)];
      expired := expired - {key};
    }

    /** CreationObserved(key): one creation fewer is awaited, if the key has
        a record. */
    method CreationObserved(key: string)
      modifies this
      ensures key in old(records) ==> records == old(records)[key := old(records)[key].(add := old(records)[key].add - 1)]
      ensures key !in old(records) ==> records == old(records)
      ensures expired == old(expired)
    {
      if key in records {
        records := records[key := records[key].(add := records[key].add - 1)];
      }
    }

    /** DeletionObserved(key): one deletion fewer is awaited, if the key has
        a record. */
    method DeletionObserved(key: string)
      modifies this
      ensures key in old(records) ==> records == old(records)[key := old(records)[key].(del := old(records)[key].del - 1)]
      ensures key !in old(records) ==> records == old(records)
      ensures expired == old(expired)
    {
      if key in records {
        records := records[key := records[key].(del := records[key].del - 1)];
      }
    }
  }

  /** GenExpectationPodsKey: "<job key>/<lower-case type>/pods". */
  function PodsKey(jobKey: string, rtype: string): string
  {
    jobKey + "/" + ToLower(rtype) + "/pods"
  }

  /** GenExpectationServicesKey: "<job key>/<lower-case type>/services". */
  function ServicesKey(jobKey: string, rtype: string): string
  {
    jobKey + "/" + ToLower(rtype) + "/services"
  }

  /** A pods key never equals a services key, so pod and service
      expectations of the same job never share a record. */
  lemma PodsAndServicesKeysDiffer(j1: string, r1: string, j2: string, r2: string)
    ensures PodsKey(j1, r1) != ServicesKey(j2, r2)
  {
    var p := PodsKey(j1, r1);
    var s := ServicesKey(j2, r2);
    assert p[|p| - 2] == 'd';
    assert s[|s| - 2] == 'e';
  }

  /** The records after a reconcile loop has passed the first k slots of
      one replica type: the key awaits one creation once an empty slot has
      been met. */
  function RecordsAfter<T>(records: map<string, Record>, key: string, slots: seq<seq<T>>, k: nat): map<string, Record>
    requires k <= |slots|
  {
    if AnyEmpty(slots, k) then records[key := Record(1, 0)] else records
  }

  /** The expired keys after the same loop: meeting an empty slot renews
      the key, so it is no longer expired. */
  function ExpiredAfter<T>(expired: set<string>, key: string, slots: seq<seq<T>>, k: nat): set<string>
    requires k <= |slots|
  {
    if AnyEmpty(slots, k) then expired - {key} else expired
  }

  /** The records and expired keys after slot k follow from those after
      the first k slots. */
  lemma RecordsStep<T>(records: map<string, Record>, expired: set<string>, key: string, slots: seq<seq<T>>, k: nat)
    requires k < |slots|
    ensures RecordsAfter(records, key, slots, k + 1) ==
            if |slots[k]| == 0 then RecordsAfter(records, key, slots, k)[key := Record(1, 0)]
            else RecordsAfter(records, key, slots, k)
    ensures ExpiredAfter(expired, key, slots, k + 1) ==
            if |slots[k]| == 0 then ExpiredAfter(expired, key, slots, k) - {key}
            else ExpiredAfter(expired, key, slots, k)
  {
    if |slots[k]| == 0 {
      assert AnyEmpty(slots, k + 1);
    } else {
      assert AnyEmpty(slots, k + 1) <==> AnyEmpty(slots, k);
    }
  }
}
