/** The job-condition state machine shared by all kubeflow job controllers:
    queries over a condition list and the append/replace rule `setCondition`
    with its precedence rules (a True Failed condition is terminal, Running
    and Restarting exclude each other, Failed or Succeeded demote Running). */
module Conditions {
  import opened Common
  import opened Api

  // ---------------------------------------------------------------------
  // Queries

  /** hasCondition: scans the list for a condition of type t whose status
      is True. */
  function HasCondition(conds: seq<JobCondition>, t: ConditionType): (r: bool)
    ensures r <==> exists i :: 0 <= i < |conds| && conds[i].ctype == t && conds[i].status == ConditionTrue
    decreases |conds|
  {
    if conds == [] then false
    else if conds[0].ctype == t && conds[0].status == ConditionTrue then true
    else
      var rest := HasCondition(conds[1..], t);
      assert forall i :: 0 < i < |conds| ==> conds[i] == conds[1..][i - 1];
      rest
  }

  predicate IsSucceeded(conds: seq<JobCondition>)
  {
    HasCondition(conds, JobSucceeded)
  }

  predicate IsFailed(conds: seq<JobCondition>)
  {
    HasCondition(conds, JobFailed)
  }

  /** getCondition: the first condition of type t, if any. */
  function GetCondition(conds: seq<JobCondition>, t: ConditionType): (r: Option<JobCondition>)
    ensures r.None? <==> forall i :: 0 <= i < |conds| ==> conds[i].ctype != t
    ensures r.Some? ==> exists i :: 0 <= i < |conds| && conds[i] == r.value && r.value.ctype == t
                                   && forall j :: 0 <= j < i ==> conds[j].ctype != t
    decreases |conds|
  {
    if conds == [] then None
    else if conds[0].ctype == t then Some(conds[0])
    else
      var rest := GetCondition(conds[1..], t);
      assert forall i :: 0 < i < |conds| ==> conds[i] == conds[1..][i - 1];
      if rest.Some? then
        var k :| 0 <= k < |conds[1..]| && conds[1..][k] == rest.value && rest.value.ctype == t
                 && forall j :: 0 <= j < k ==> conds[1..][j].ctype != t;
        assert conds[k + 1] == rest.value;
        rest
      else rest
  }

  /** newCondition: a True condition stamped with the current time. */
  function NewCondition(t: ConditionType, reason: string, message: string, now: int): (c: JobCondition)
    ensures c.ctype == t && c.status == ConditionTrue && c.reason == reason && c.message == message
    ensures c.lastUpdateTime == now && c.lastTransitionTime == now
  {
    JobCondition(t, ConditionTrue, reason, message, now, now)
  }

  // ---------------------------------------------------------------------
  // filterOutCondition

  /** Whether filterOutCondition(_, t) drops a condition of type ct: its own
      type, and Running/Restarting drop each other. */
  predicate Dropped(t: ConditionType, ct: ConditionType)
  {
    ct == t || (t == JobRestarting && ct == JobRunning) || (t == JobRunning && ct == JobRestarting)
  }

  /** What filterOutCondition(_, t) keeps of a condition it does not drop:
      a Running condition is demoted to False when t is Failed or Succeeded. */
  function Kept(t: ConditionType, c: JobCondition): JobCondition
  {
    if (t == JobFailed || t == JobSucceeded) && c.ctype == JobRunning then c.(status := ConditionFalse) else c
  }

  function FilterOutCondition(conds: seq<JobCondition>, t: ConditionType): seq<JobCondition>
    decreases |conds|
  {
    if conds == [] then []
    else if Dropped(t, conds[0].ctype) then FilterOutCondition(conds[1..], t)
    else [Kept(t, conds[0])] + FilterOutCondition(conds[1..], t)
  }

  /** Filtering distributes over concatenation: every surviving condition
      keeps its relative order. */
  lemma {:induction false} FilterOutAppend(a: seq<JobCondition>, b: seq<JobCondition>, t: ConditionType)
    ensures FilterOutCondition(a + b, t) == FilterOutCondition(a, t) + FilterOutCondition(b, t)
    decreases |a|
  {
    if a != [] {
      assert (a + b)[0] == a[0];
      assert (a + b)[1..] == a[1..] + b;
      FilterOutAppend(a[1..], b, t);
      var head := if Dropped(t, a[0].ctype) then [] else [Kept(t, a[0])];
      assert FilterOutCondition(a, t) == head + FilterOutCondition(a[1..], t);
      assert FilterOutCondition(a + b, t) == head + FilterOutCondition(a[1..] + b, t);
      assert head + (FilterOutCondition(a[1..], t) + FilterOutCondition(b, t))
          == (head + FilterOutCondition(a[1..], t)) + FilterOutCondition(b, t);
    } else {
      assert a + b == b;
    }
  }

  /** Exactly the conditions not dropped survive, each as `Kept` makes it. */
  lemma {:induction false} FilterOutMembers(conds: seq<JobCondition>, t: ConditionType)
    ensures |FilterOutCondition(conds, t)| <= |conds|
    ensures forall x :: x in FilterOutCondition(conds, t) <==>
              exists c :: c in conds && !Dropped(t, c.ctype) && x == Kept(t, c)
    decreases |conds|
  {
    if conds != [] {
      FilterOutMembers(conds[1..], t);
      assert forall c :: c in conds <==> c == conds[0] || c in conds[1..];
    }
  }

  /** No survivor has a type that t drops. */
  lemma FilterOutNoDropped(conds: seq<JobCondition>, t: ConditionType)
    ensures forall i :: 0 <= i < |FilterOutCondition(conds, t)| ==> !Dropped(t, FilterOutCondition(conds, t)[i].ctype)
  {
    FilterOutMembers(conds, t);
    var r := FilterOutCondition(conds, t);
    forall i | 0 <= i < |r| ensures !Dropped(t, r[i].ctype) {
      assert r[i] in r;
    }
  }

  // ---------------------------------------------------------------------
  // setCondition

  /** Whether setCondition leaves the list as it is: a True Failed condition
      is present, or the first condition of the same type already has the
      same status and reason. */
  predicate SetIsNoOp(conds: seq<JobCondition>, c: JobCondition)
  {
    IsFailed(conds) ||
    (GetCondition(conds, c.ctype).Some? &&
     GetCondition(conds, c.ctype).value.status == c.status &&
     GetCondition(conds, c.ctype).value.reason == c.reason)
  }

  /** The condition setCondition appends: c, keeping the old transition time
      when the first same-type condition already had c's status. */
  function Stamped(conds: seq<JobCondition>, c: JobCondition): JobCondition
  {
    var cur := GetCondition(conds, c.ctype);
    if cur.Some? && cur.value.status == c.status then c.(lastTransitionTime := cur.value.lastTransitionTime) else c
  }

  function SetCondition(conds: seq<JobCondition>, c: JobCondition): (r: seq<JobCondition>)
    ensures IsFailed(conds) ==> r == conds
    ensures SetIsNoOp(conds, c) ==> r == conds
    ensures !SetIsNoOp(conds, c) ==>
              |r| > 0 && r[|r| - 1] == Stamped(conds, c) &&
              forall i :: 0 <= i < |r| - 1 ==> !Dropped(c.ctype, r[i].ctype)
  {
    if SetIsNoOp(conds, c) then conds
    else
      FilterOutNoDropped(conds, c.ctype);
      FilterOutCondition(conds, c.ctype) + [Stamped(conds, c)]
  }

  /** The appended condition differs from c at most in its transition time,
      which is inherited exactly when the status did not change. */
  lemma StampedInherits(conds: seq<JobCondition>, c: JobCondition)
    requires !SetIsNoOp(conds, c)
    ensures Stamped(conds, c).(lastTransitionTime := c.lastTransitionTime) == c
    ensures GetCondition(conds, c.ctype).Some? && GetCondition(conds, c.ctype).value.status == c.status ==>
              GetCondition(conds, c.ctype).value.reason != c.reason &&
              Stamped(conds, c).lastTransitionTime == GetCondition(conds, c.ctype).value.lastTransitionTime
    ensures (GetCondition(conds, c.ctype).None? || GetCondition(conds, c.ctype).value.status != c.status) ==>
              Stamped(conds, c) == c
  {
  }

  /** After a change, the new condition is last and no other element has its
      type (nor, for Running and Restarting, the other one's type). */
  lemma SetConditionReplaces(conds: seq<JobCondition>, c: JobCondition)
    requires !SetIsNoOp(conds, c)
    ensures var r := SetCondition(conds, c);
            r[|r| - 1].ctype == c.ctype &&
            (forall i :: 0 <= i < |r| - 1 ==> r[i].ctype != c.ctype) &&
            (c.ctype == JobRunning ==> forall i :: 0 <= i < |r| ==> r[i].ctype != JobRestarting) &&
            (c.ctype == JobRestarting ==> forall i :: 0 <= i < |r| ==> r[i].ctype != JobRunning)
  {
  }

  /** Adding Failed or Succeeded keeps every Running condition but with
      status False; every condition of another type keeps its content, and
      the survivors keep their order (FilterOutAppend). */
  lemma {:induction false} SetTerminalDemotesRunning(conds: seq<JobCondition>, c: JobCondition)
    requires !SetIsNoOp(conds, c)
    requires c.ctype == JobFailed || c.ctype == JobSucceeded
    ensures var r := SetCondition(conds, c);
            (forall i :: 0 <= i < |r| && r[i].ctype == JobRunning ==> r[i].status == ConditionFalse) &&
            (forall x :: x in conds && x.ctype == JobRunning ==> x.(status := ConditionFalse) in r) &&
            (forall x :: x in conds && x.ctype != JobRunning && x.ctype != c.ctype ==> x in r) &&
            (forall i :: 0 <= i < |r| - 1 ==> exists x :: x in conds && r[i] == Kept(c.ctype, x))
  {
    var r := SetCondition(conds, c);
    var f := FilterOutCondition(conds, c.ctype);
    FilterOutMembers(conds, c.ctype);
    assert r == f + [Stamped(conds, c)];
    forall i | 0 <= i < |r| && r[i].ctype == JobRunning ensures r[i].status == ConditionFalse {
      if i < |f| {
        assert r[i] in f;
      }
    }
    forall x | x in conds && x.ctype == JobRunning ensures x.(status := ConditionFalse) in r {
      assert Kept(c.ctype, x) in f;
    }
    forall x | x in conds && x.ctype != JobRunning && x.ctype != c.ctype ensures x in r {
      assert Kept(c.ctype, x) in f;
    }
    forall i | 0 <= i < |r| - 1 ensures exists x :: x in conds && r[i] == Kept(c.ctype, x) {
      assert r[i] in f;
    }
  }

  /** Once the list holds a True Failed condition it never changes again. */
  lemma {:induction false} FailedIsAbsorbing(conds: seq<JobCondition>, cs: seq<JobCondition>)
    requires IsFailed(conds)
    ensures ApplyAll(conds, cs) == conds
    decreases |cs|
  {
    if cs != [] {
      FailedIsAbsorbing(conds, cs[1..]);
    }
  }

  /** Setting each condition of cs in turn. */
  function ApplyAll(conds: seq<JobCondition>, cs: seq<JobCondition>): seq<JobCondition>
    decreases |cs|
  {
    if cs == [] then conds else ApplyAll(SetCondition(conds, cs[0]), cs[1..])
  }

  /** Setting a True condition on a list without a True Failed condition
      leaves a True condition of that type in the list. */
  lemma SetConditionEstablishes(conds: seq<JobCondition>, c: JobCondition)
    requires !IsFailed(conds) && c.status == ConditionTrue
    ensures HasCondition(SetCondition(conds, c), c.ctype)
  {
    var r := SetCondition(conds, c);
    if SetIsNoOp(conds, c) {
      var cur := GetCondition(conds, c.ctype);
      assert cur.value in conds;
    } else {
      assert r[|r| - 1].ctype == c.ctype && r[|r| - 1].status == ConditionTrue;
    }
  }

  // ---------------------------------------------------------------------
  // The invariant setCondition maintains

  /** Every type occurs at most once, and Running and Restarting never occur
      together. */
  ghost predicate WellFormed(conds: seq<JobCondition>)
  {
    (forall i, j :: 0 <= i < j < |conds| ==> conds[i].ctype != conds[j].ctype) &&
    !((exists i :: 0 <= i < |conds| && conds[i].ctype == JobRunning) &&
      (exists j :: 0 <= j < |conds| && conds[j].ctype == JobRestarting))
  }

  /** Filtering keeps types distinct, since it only drops and demotes. */
  lemma {:induction false} FilterOutKeepsDistinct(conds: seq<JobCondition>, t: ConditionType)
    requires forall i, j :: 0 <= i < j < |conds| ==> conds[i].ctype != conds[j].ctype
    ensures var f := FilterOutCondition(conds, t);
            forall i, j :: 0 <= i < j < |f| ==> f[i].ctype != f[j].ctype
    decreases |conds|
  {
    if conds != [] {
      FilterOutKeepsDistinct(conds[1..], t);
      FilterOutMembers(conds[1..], t);
      var rest := FilterOutCondition(conds[1..], t);
      forall x | x in rest ensures x.ctype != conds[0].ctype {
        var y :| y in conds[1..] && !Dropped(t, y.ctype) && x == Kept(t, y);
        var k :| 0 <= k < |conds[1..]| && conds[1..][k] == y;
        assert conds[k + 1] == y;
      }
      if !Dropped(t, conds[0].ctype) {
        var f := [Kept(t, conds[0])] + rest;
        forall i, j | 0 <= i < j < |f| ensures f[i].ctype != f[j].ctype {
          if i == 0 {
            assert f[j] == rest[j - 1] && rest[j - 1] in rest;
          } else {
            assert f[i] == rest[i - 1] && f[j] == rest[j - 1];
          }
        }
      }
    }
  }

  /** setCondition preserves WellFormed. */
  lemma SetConditionPreservesWellFormed(conds: seq<JobCondition>, c: JobCondition)
    requires WellFormed(conds)
    ensures WellFormed(SetCondition(conds, c))
  {
    if !SetIsNoOp(conds, c) {
      var r := SetCondition(conds, c);
      var f := FilterOutCondition(conds, c.ctype);
      FilterOutKeepsDistinct(conds, c.ctype);
      FilterOutMembers(conds, c.ctype);
      FilterOutNoDropped(conds, c.ctype);
      assert r == f + [Stamped(conds, c)];
      forall i, j | 0 <= i < j < |r| ensures r[i].ctype != r[j].ctype {
        if j == |r| - 1 {
          assert !Dropped(c.ctype, f[i].ctype);
        } else {
          assert r[i] == f[i] && r[j] == f[j];
        }
      }
      forall i | 0 <= i < |f| ensures exists k :: 0 <= k < |conds| && conds[k].ctype == f[i].ctype {
        assert f[i] in f;
        var x :| x in conds && !Dropped(c.ctype, x.ctype) && f[i] == Kept(c.ctype, x);
        var k :| 0 <= k < |conds| && conds[k] == x;
      }
      if c.ctype == JobRunning || c.ctype == JobRestarting {
        SetConditionReplaces(conds, c);
      } else if forall k :: 0 <= k < |conds| ==> conds[k].ctype != JobRunning {
        assert forall i :: 0 <= i < |r| ==> r[i].ctype != JobRunning;
      } else {
        assert forall i :: 0 <= i < |r| ==> r[i].ctype != JobRestarting;
      }
    }
  }

  /** A True condition of type u survives setting c unless c's type drops
      it (its own type, or Running/Restarting for each other) or demotes
      it (a Running condition under Failed or Succeeded). */
  lemma SetConditionKeeps(conds: seq<JobCondition>, c: JobCondition, u: ConditionType)
    requires HasCondition(conds, u)
    requires !Dropped(c.ctype, u) && !(u == JobRunning && (c.ctype == JobFailed || c.ctype == JobSucceeded))
    ensures HasCondition(SetCondition(conds, c), u)
  {
    if !SetIsNoOp(conds, c) {
      var i :| 0 <= i < |conds| && conds[i].ctype == u && conds[i].status == ConditionTrue;
      var f := FilterOutCondition(conds, c.ctype);
      FilterOutMembers(conds, c.ctype);
      assert Kept(c.ctype, conds[i]) == conds[i];
      assert conds[i] in f;
      var j :| 0 <= j < |f| && f[j] == conds[i];
      var r := SetCondition(conds, c);
      assert r[j] == f[j];
    }
  }

  /** Setting a condition of another type never creates a True condition
      of type u. */
  lemma SetConditionNoNewTrue(conds: seq<JobCondition>, c: JobCondition, u: ConditionType)
    requires !HasCondition(conds, u) && c.ctype != u
    ensures !HasCondition(SetCondition(conds, c), u)
  {
    if !SetIsNoOp(conds, c) {
      var r := SetCondition(conds, c);
      var f := FilterOutCondition(conds, c.ctype);
      FilterOutMembers(conds, c.ctype);
      forall j | 0 <= j < |r| && r[j].ctype == u ensures r[j].status != ConditionTrue {
        assert r[j] == f[j] && f[j] in f;
        var x :| x in conds && !Dropped(c.ctype, x.ctype) && f[j] == Kept(c.ctype, x);
        var k :| 0 <= k < |conds| && conds[k] == x;
      }
    }
  }
}
