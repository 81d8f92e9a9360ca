/** Selecting the objects of one replica type and bucketing them into
    replica slots by their index label. Pods and services go through the
    same two steps, so both are written once over any object type, given
    the function that reads an object's labels. */
module Slots {
  import opened Common
  import opened Api

  /** The replica-type selector matches: the label is present and equal. */
  predicate HasType(labels: map<string, string>, rt: string)
  {
    ReplicaTypeLabel in labels && labels[ReplicaTypeLabel] == rt
  }

  /** The slot an index label names, if it is present and parses. */
  function IndexOf(labels: map<string, string>): (r: Option<int>)
    ensures ReplicaIndexLabel !in labels ==> r.None?
  {
    if ReplicaIndexLabel in labels then Atoi(labels[ReplicaIndexLabel]) else None
  }

  /** The objects of type rt, in list order. */
  function OfType<T>(objs: seq<T>, labelsOf: T -> map<string, string>, rt: string): (r: seq<T>)
    ensures |r| <= |objs|
    decreases |objs|
  {
    if objs == [] then []
    else
      OfType(objs[..|objs| - 1], labelsOf, rt) +
      (if HasType(labelsOf(objs[|objs| - 1]), rt) then [objs[|objs| - 1]] else [])
  }

  /** Exactly the objects of type rt are selected. */
  lemma {:induction false} OfTypeMembers<T(!new)>(objs: seq<T>, labelsOf: T -> map<string, string>, rt: string)
    ensures forall x :: x in OfType(objs, labelsOf, rt) <==> x in objs && HasType(labelsOf(x), rt)
    decreases |objs|
  {
    if objs != [] {
      OfTypeMembers(objs[..|objs| - 1], labelsOf, rt);
      assert forall x :: x in objs <==> x in objs[..|objs| - 1] || x == objs[|objs| - 1];
    }
  }

  /** Selection keeps relative order: it distributes over concatenation. */
  lemma {:induction false} OfTypeAppend<T(!new)>(a: seq<T>, b: seq<T>, labelsOf: T -> map<string, string>, rt: string)
    ensures OfType(a + b, labelsOf, rt) == OfType(a, labelsOf, rt) + OfType(b, labelsOf, rt)
    decreases |b|
  {
    if b == [] {
      assert a + b == a;
    } else {
      var b' := b[..|b| - 1];
      assert (a + b)[..|a + b| - 1] == a + b';
      OfTypeAppend(a, b', labelsOf, rt);
    }
  }

  /** A character a Kubernetes label value may hold: a letter, a digit,
      '-', '_' or '.'. */
  predicate LabelChar(c: char)
  {
    'a' <= c <= 'z' || 'A' <= c <= 'Z' || '0' <= c <= '9' || c == '-' || c == '_' || c == '.'
  }

  predicate AlphaNumeric(c: char)
  {
    'a' <= c <= 'z' || 'A' <= c <= 'Z' || '0' <= c <= '9'
  }

  /** The Kubernetes label-value syntax that LabelSelectorAsSelector
      checks: empty, or at most 63 label characters that begin and end
      with a letter or a digit. */
  predicate IsLabelValue(v: string)
  {
    v == [] ||
    (|v| <= 63 && AlphaNumeric(v[0]) && AlphaNumeric(v[|v| - 1]) &&
     forall i :: 0 <= i < |v| ==> LabelChar(v[i]))
  }

  /** The selector for rt is built once per listed object, so it fails iff
      some object is listed and rt is no label value. */
  predicate SelectorFails<T>(objs: seq<T>, rt: string)
  {
    |objs| > 0 && !IsLabelValue(rt)
  }

  const InvalidLabelValue: Error := Failure("invalid label value")

  /** FilterPodsForReplicaType / FilterServicesForReplicaType: the objects
      whose replica-type label is rt, or the selector's error, in which case
      nothing is returned. The error text is not the apimachinery one. */
  method FilterForReplicaType<T(==,!new)>(objs: seq<T>, labelsOf: T -> map<string, string>, rt: string)
    returns (r: Result<seq<T>>)
    ensures r.Err? <==> SelectorFails(objs, rt)
    ensures r.Ok? ==> r.value == OfType(objs, labelsOf, rt)
  {
    var result := [];
    var k := 0;
    while k < |objs|
      invariant 0 <= k <= |objs|
      invariant result == OfType(objs[..k], labelsOf, rt)
      invariant k > 0 ==> IsLabelValue(rt)
    {
      if !IsLabelValue(rt) {
        return Err(InvalidLabelValue);
      }
      assert objs[..k + 1][..k] == objs[..k];
      if HasType(labelsOf(objs[k]), rt) {
        result := result + [objs[k]];
      }
      k := k + 1;
    }
    assert objs[..k] == objs;
    r := Ok(result);
  }

  /** The objects whose index label names slot i, in list order. */
  function Bucket<T>(objs: seq<T>, labelsOf: T -> map<string, string>, i: int): (r: seq<T>)
    ensures |r| <= |objs|
    decreases |objs|
  {
    if objs == [] then []
    else
      Bucket(objs[..|objs| - 1], labelsOf, i) +
      (if IndexOf(labelsOf(objs[|objs| - 1])) == Some(i) then [objs[|objs| - 1]] else [])
  }

  /** Bucket i holds exactly the objects whose index label parses to i. */
  lemma {:induction false} BucketMembers<T(!new)>(objs: seq<T>, labelsOf: T -> map<string, string>, i: int)
    ensures forall x :: x in Bucket(objs, labelsOf, i) <==> x in objs && IndexOf(labelsOf(x)) == Some(i)
    decreases |objs|
  {
    if objs != [] {
      BucketMembers(objs[..|objs| - 1], labelsOf, i);
      assert forall x :: x in objs <==> x in objs[..|objs| - 1] || x == objs[|objs| - 1];
    }
  }

  /** The buckets GetPodSlices / GetServiceSlices compute: exactly
      `replicas` of them, bucket i holding, in list order, the objects
      whose index label parses to i. */
  function Slices<T>(objs: seq<T>, labelsOf: T -> map<string, string>, replicas: nat): (r: seq<seq<T>>)
    ensures |r| == replicas
    decreases replicas
  {
    if replicas == 0 then [] else Slices(objs, labelsOf, replicas - 1) + [Bucket(objs, labelsOf, replicas - 1)]
  }

  lemma {:induction false} SlicesIndex<T>(objs: seq<T>, labelsOf: T -> map<string, string>, replicas: nat, i: nat)
    requires i < replicas
    ensures Slices(objs, labelsOf, replicas)[i] == Bucket(objs, labelsOf, i)
    decreases replicas
  {
    if i < replicas - 1 {
      SlicesIndex(objs, labelsOf, replicas - 1, i);
    }
  }

  /** An object sits in some slot iff its index label is present, parses,
      and lies in [0, replicas); objects without such a label are dropped. */
  lemma SlotsPlaceExactly<T(!new)>(objs: seq<T>, labelsOf: T -> map<string, string>, replicas: nat, x: T)
    requires x in objs
    ensures (exists i :: 0 <= i < replicas && x in Slices(objs, labelsOf, replicas)[i]) <==>
            IndexOf(labelsOf(x)).Some? && 0 <= IndexOf(labelsOf(x)).value < replicas
  {
    var s := Slices(objs, labelsOf, replicas);
    forall i | 0 <= i < replicas
      ensures x in s[i] <==> IndexOf(labelsOf(x)) == Some(i)
    {
      SlicesIndex(objs, labelsOf, replicas, i);
      BucketMembers(objs, labelsOf, i);
    }
    if IndexOf(labelsOf(x)).Some? && 0 <= IndexOf(labelsOf(x)).value < replicas {
      var i := IndexOf(labelsOf(x)).value;
      assert 0 <= i < replicas && x in s[i];
      assert exists j :: 0 <= j < replicas && x in Slices(objs, labelsOf, replicas)[j];
    } else {
      forall i | 0 <= i < replicas ensures x !in s[i] {
        assert IndexOf(labelsOf(x)) != Some(i);
      }
    }
  }

  /** Observing one more object of type rt whose index label names slot i
      appends it to slot i and leaves every other slot as it was: the
      object a controller creates for an empty slot fills exactly that
      slot. */
  lemma SlotsGrow<T>(objs: seq<T>, labelsOf: T -> map<string, string>, rt: string, replicas: nat, x: T, i: nat)
    requires HasType(labelsOf(x), rt) && IndexOf(labelsOf(x)) == Some(i) && i < replicas
    ensures var before := Slices(OfType(objs, labelsOf, rt), labelsOf, replicas);
            var after := Slices(OfType(objs + [x], labelsOf, rt), labelsOf, replicas);
            after[i] == before[i] + [x] &&
            forall j :: 0 <= j < replicas && j != i ==> after[j] == before[j]
  {
    var grown := objs + [x];
    assert grown[..|grown| - 1] == objs;
    var o := OfType(objs, labelsOf, rt);
    assert OfType(grown, labelsOf, rt) == o + [x];
    assert (o + [x])[..|o|] == o;
    forall j | 0 <= j < replicas
      ensures Slices(o + [x], labelsOf, replicas)[j] == Slices(o, labelsOf, replicas)[j] + (if j == i then [x] else [])
    {
      SlicesIndex(o + [x], labelsOf, replicas, j);
      SlicesIndex(o, labelsOf, replicas, j);
    }
  }

  /** GetPodSlices / GetServiceSlices: one pass over the list, appending
      each object with a usable index label to its slot. */
  method GetSlices<T(==,!new)>(objs: seq<T>, labelsOf: T -> map<string, string>, replicas: nat) returns (slices: seq<seq<T>>)
    ensures slices == Slices(objs, labelsOf, replicas)
  {
    var buckets := new seq<T>[replicas](i => []);
    var k := 0;
    while k < |objs|
      invariant 0 <= k <= |objs|
      invariant forall i :: 0 <= i < replicas ==> buckets[i] == Bucket(objs[..k], labelsOf, i)
    {
      assert objs[..k + 1][..k] == objs[..k];
      var labels := labelsOf(objs[k]);
      if ReplicaIndexLabel in labels {
        var index := Atoi(labels[ReplicaIndexLabel]);
        if index.Some? && 0 <= index.value < replicas {
          buckets[index.value] := buckets[index.value] + [objs[k]];
        }
      }
      k := k + 1;
    }
    assert objs[..k] == objs;
    slices := buckets[..];
    forall i | 0 <= i < replicas
      ensures slices[i] == Slices(objs, labelsOf, replicas)[i]
    {
      SlicesIndex(objs, labelsOf, replicas, i);
    }
  }

  /** Whether one of the first k slots is empty. */
  predicate AnyEmpty<T>(slots: seq<seq<T>>, k: nat)
    requires k <= |slots|
  {
    exists i :: 0 <= i < k && |slots[i]| == 0
  }

  /** The number of empty slots among the first k. */
  function EmptyCount<T>(slots: seq<seq<T>>, k: nat): (n: nat)
    requires k <= |slots|
    ensures n <= k
    ensures n == 0 <==> !AnyEmpty(slots, k)
  {
    if k == 0 then 0 else EmptyCount(slots, k - 1) + (if |slots[k - 1]| == 0 then 1 else 0)
  }

  lemma ConcatAssoc<T>(a: seq<T>, b: seq<T>, c: seq<T>)
    ensures a + (b + c) == (a + b) + c
  {
  }
}
