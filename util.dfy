/** Helpers of the XGBoostJob controller: the master address, its own port
    search, the total replica count (a 32-bit sum over the replica map) and
    the work queue that does nothing. */
module Util {
  import opened Common
  import opened Api
  import opened Ports

  /** computeMasterAddr: "<job>-<type>-<index>" with every slash turned
      into a dash. */
  function ComputeMasterAddr(jobName: string, rtype: string, index: string): (r: string)
    ensures '/' !in r && |r| == |jobName| + |rtype| + |index| + 2
    ensures r[|jobName|] == '-' && r[|jobName| + |rtype| + 1] == '-'
  {
    ReplaceSlashes(jobName + "-" + rtype + "-" + index)
  }

  /** Names without slashes are joined unchanged. */
  lemma MasterAddrWithoutSlashes(jobName: string, rtype: string, index: string)
    requires '/' !in jobName && '/' !in rtype && '/' !in index
    ensures ComputeMasterAddr(jobName, rtype, index) == jobName + "-" + rtype + "-" + index
  {
    var n := jobName + "-" + rtype + "-" + index;
    assert forall i :: 0 <= i < |n| ==> n[i] != '/' by {
      forall i | 0 <= i < |n| ensures n[i] != '/' {
        if i < |jobName| {
          assert n[i] == jobName[i];
        } else if i == |jobName| {
        } else if i < |jobName| + 1 + |rtype| {
          assert n[i] == rtype[i - |jobName| - 1];
        } else if i == |jobName| + 1 + |rtype| {
        } else {
          assert n[i] == index[i - |jobName| - |rtype| - 2];
        }
      }
    }
  }

  const PortNotFoundHere: Error := Failure("failed to found the port")

  /** GetPortFromXGBoostJob of this controller: the first port named
      DefaultContainerPortName of a default-named container of the rtype
      replica (Go returns -1 with the error). The spec must be present: Go
      dereferences it unchecked. */
  function GetPortFromXGBoostJob(specs: map<string, ReplicaSpec>, rtype: string): (r: Result<int>)
    requires rtype in specs
    ensures var cs := specs[rtype].template.containers;
            (r.Err? <==> NoPort(cs, DefaultContainerName, DefaultContainerPortName)) &&
            (r.Err? ==> r.error == PortNotFoundHere) &&
            (r.Ok? ==> IsFirstPort(cs, DefaultContainerName, DefaultContainerPortName, r.value))
  {
    FindPortFirst(specs[rtype].template.containers, DefaultContainerName, DefaultContainerPortName);
    match FindPort(specs[rtype].template.containers, DefaultContainerName, DefaultContainerPortName)
    case Some(p) => Ok(p)
    case None => Err(PortNotFoundHere)
  }

  // ---------------------------------------------------------------------
  // computeTotalReplicas

  const Two32: int := 0x1_0000_0000
  const Two31: int := 0x8000_0000

  /** An int32 result: the value reduced into [-2^31, 2^31). */
  function Wrap32(x: int): (r: int)
    ensures -Two31 <= r < Two31
    ensures -Two31 <= x < Two31 ==> r == x
  {
    (x + Two31) % Two32 - Two31
  }

  /** What one replica spec adds: its Replicas, or nothing when nil. */
  function ReplicasOf(spec: ReplicaSpec): int
  {
    if spec.replicas.Some? then spec.replicas.value else 0
  }

  /** `order` lists the keys of the map once each, as Go's range does. */
  ghost predicate Enumerates<V>(specs: map<string, V>, order: seq<string>)
  {
    (forall k :: k in order <==> k in specs) &&
    forall i, j :: 0 <= i < j < |order| ==> order[i] != order[j]
  }

  /** computeTotalReplicas, ranging over the map in `order`: an int32
      accumulator, so every addition wraps. */
  function ComputeTotalReplicas(specs: map<string, ReplicaSpec>, order: seq<string>): (r: int)
    requires forall k :: k in order ==> k in specs
    ensures -Two31 <= r < Two31
    ensures order == [] ==> r == 0
    decreases |order|
  {
    if order == [] then 0
    else
      var last := order[|order| - 1];
      Wrap32(ComputeTotalReplicas(specs, order[..|order| - 1]) + ReplicasOf(specs[last]))
  }

  /** The sum of the Replicas of the specs with keys in `keys`, in no
      particular order. */
  ghost function SetSum(specs: map<string, ReplicaSpec>, keys: set<string>): int
    requires keys <= specs.Keys
    decreases keys
  {
    if keys == {} then 0
    else
      var k :| k in keys;
      ReplicasOf(specs[k]) + SetSum(specs, keys - {k})
  }

  /** Any key can be taken out of the sum first. */
  lemma {:induction false} SetSumRemove(specs: map<string, ReplicaSpec>, keys: set<string>, x: string)
    requires keys <= specs.Keys && x in keys
    ensures SetSum(specs, keys) == ReplicasOf(specs[x]) + SetSum(specs, keys - {x})
    decreases keys
  {
    var k :| k in keys && SetSum(specs, keys) == ReplicasOf(specs[k]) + SetSum(specs, keys - {k});
    if k != x {
      SetSumRemove(specs, keys - {k}, x);
      SetSumRemove(specs, keys - {x}, k);
      assert keys - {k} - {x} == keys - {x} - {k};
    }
  }

  /** Without wrapping, summing in any enumeration order gives the set sum. */
  function PlainSum(specs: map<string, ReplicaSpec>, order: seq<string>): int
    requires forall k :: k in order ==> k in specs
    decreases |order|
  {
    if order == [] then 0
    else PlainSum(specs, order[..|order| - 1]) + ReplicasOf(specs[order[|order| - 1]])
  }

  lemma {:induction false} PlainSumIsSetSum(specs: map<string, ReplicaSpec>, order: seq<string>)
    requires forall k :: k in order ==> k in specs
    requires forall i, j :: 0 <= i < j < |order| ==> order[i] != order[j]
    ensures PlainSum(specs, order) == SetSum(specs, set k | k in order)
    decreases |order|
  {
    if order != [] {
      var init := order[..|order| - 1];
      var last := order[|order| - 1];
      PlainSumIsSetSum(specs, init);
      var all := set k | k in order;
      SetSumRemove(specs, all, last);
      assert all - {last} == set k | k in init by {
        forall k | k in init ensures k != last {
          var i :| 0 <= i < |init| && init[i] == k;
          assert order[i] == k;
        }
      }
    }
  }

  /** Reducing the accumulator first does not change the reduced result. */
  lemma WrapAdd(a: int, b: int)
    ensures Wrap32(Wrap32(a) + b) == Wrap32(a + b)
  {
    var q := (a + Two31) / Two32;
    assert Wrap32(a) == a - Two32 * q;
    var y := a + b + Two31;
    assert (y - Two32 * q) % Two32 == y % Two32 by {
      var d := y / Two32;
      var m := y % Two32;
      assert y - Two32 * q == Two32 * (d - q) + m;
    }
  }

  lemma {:induction false} WrappedIsPlain(specs: map<string, ReplicaSpec>, order: seq<string>)
    requires forall k :: k in order ==> k in specs
    ensures ComputeTotalReplicas(specs, order) == Wrap32(PlainSum(specs, order))
    decreases |order|
  {
    if order != [] {
      var init := order[..|order| - 1];
      WrappedIsPlain(specs, init);
      WrapAdd(PlainSum(specs, init), ReplicasOf(specs[order[|order| - 1]]));
    }
  }

  /** computeTotalReplicas is the sum of all non-nil Replicas values,
      reduced to int32, whatever order the map is ranged over; an empty map
      gives 0. */
  lemma TotalReplicasIsSum(specs: map<string, ReplicaSpec>, order: seq<string>)
    requires Enumerates(specs, order)
    ensures ComputeTotalReplicas(specs, order) == Wrap32(SetSum(specs, specs.Keys))
  {
    WrappedIsPlain(specs, order);
    PlainSumIsSetSum(specs, order);
    assert (set k | k in order) == specs.Keys;
  }

  // ---------------------------------------------------------------------
  // FakeWorkQueue

  /** A work queue that holds nothing and reports itself shutting down. */
  class FakeWorkQueue {
    constructor ()
    {
    }

    method Add(item: string)
    {
    }

    method Len() returns (n: int)
      ensures n == 0
    {
      n := 0;
    }

    /** Get hands out no item and does not report shutdown. */
    method Get() returns (item: Option<string>, shutdown: bool)
      ensures item.None? && !shutdown
    {
      item := None;
      shutdown := false;
    }

    method Done(item: string)
    {
    }

    method ShutDown()
    {
    }

    method ShuttingDown() returns (b: bool)
      ensures b
    {
      b := true;
    }

    method AddAfter(item: string, duration: int)
    {
    }

    method AddRateLimited(item: string)
    {
    }

    method Forget(item: string)
    {
    }

    method NumRequeues(item: string) returns (n: int)
      ensures n == 0
    {
      n := 0;
    }
  }
}
