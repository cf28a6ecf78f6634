/** A value that some steps of a run set and all others leave alone. */
module Registers {
  import opened Options

  /** What was set last before step `i`, or the first value. */
  function Latest<T>(told: seq<Option<T>>, i: nat, first: T): T
    requires i <= |told|
    decreases i
  {
    if i == 0 then first
    else if told[i - 1].Some? then told[i - 1].value
    else Latest(told, i - 1, first)
  }

  /** `v` was set at some step before `i`, and nothing since. */
  ghost predicate SetLast<T>(told: seq<Option<T>>, i: nat, v: T)
    requires i <= |told|
  {
    exists j: nat :: j < i && told[j] == Some(v) && forall k :: j < k < i ==> told[k] == None
  }

  ghost predicate NeverSet<T>(told: seq<Option<T>>, i: nat)
    requires i <= |told|
  {
    forall k :: 0 <= k < i ==> told[k] == None
  }

  lemma LastStep<T>(told: seq<Option<T>>, i: nat, v: T)
    requires 0 < i <= |told|
    ensures SetLast(told, i, v) <==> told[i - 1] == Some(v) || (told[i - 1] == None && SetLast(told, i - 1, v))
  {
    if told[i - 1] == Some(v) {
      assert SetLast(told, i, v);
    } else if told[i - 1] == None && SetLast(told, i - 1, v) {
      var j: nat :| j < i - 1 && told[j] == Some(v) && forall k :: j < k < i - 1 ==> told[k] == None;
      assert SetLast(told, i, v);
    }
  }

  lemma {:induction false} LatestMeans<T>(told: seq<Option<T>>, i: nat, first: T, v: T)
    requires i <= |told|
    ensures Latest(told, i, first) == v <==> SetLast(told, i, v) || (NeverSet(told, i) && v == first)
    decreases i
  {
    if i > 0 {
      LatestMeans(told, i - 1, first, v);
      LastStep(told, i, v);
    }
  }

  /** Each step sets the value it tells, or keeps the value. */
  ghost predicate IsRegister<T>(values: seq<T>, told: seq<Option<T>>) {
    |values| == |told| + 1 &&
    forall i, j :: 0 <= i < |told| && j == i + 1 ==>
      values[j] == if told[i].Some? then told[i].value else values[i]
  }

  lemma {:induction false} RegisterHoldsLatest<T>(values: seq<T>, told: seq<Option<T>>, i: nat)
    requires IsRegister(values, told) && i <= |told|
    ensures values[i] == Latest(told, i, values[0])
    decreases i
  {
    if i > 0 {
      RegisterHoldsLatest(values, told, i - 1);
    }
  }

  // ---- a flag that also falls when its time is over ---------------------------------------

  /** Raised at step `j`, told nothing else before step `i`, and alive ever since. */
  ghost predicate RaisedAt(told: seq<Option<bool>>, alive: seq<bool>, j: nat, i: nat)
    requires |alive| == |told| + 1 && i <= |told|
  {
    && j < i && told[j] == Some(true)
    && (forall k :: j < k < i ==> told[k] == None)
    && (forall k :: j < k <= i ==> alive[k])
  }

  ghost predicate IsFlag(flags: seq<bool>, told: seq<Option<bool>>, alive: seq<bool>) {
    && |flags| == |told| + 1 && |alive| == |flags| && !flags[0]
    && (forall k :: 0 <= k < |flags| && flags[k] ==> alive[k])
    && forall k, n :: 0 <= k < |told| && n == k + 1 ==>
         flags[n] == if told[k].Some? then told[k].value else flags[k] && alive[n]
  }

  lemma RaisedStep(told: seq<Option<bool>>, alive: seq<bool>, j: nat, i: nat)
    requires |alive| == |told| + 1 && 0 < i <= |told|
    ensures RaisedAt(told, alive, j, i) <==>
      alive[i] && ((told[i - 1] == None && RaisedAt(told, alive, j, i - 1)) || (told[i - 1] == Some(true) && j == i - 1))
  {
  }

  lemma {:induction false} FlagIsRaised(flags: seq<bool>, told: seq<Option<bool>>, alive: seq<bool>, i: nat)
    requires IsFlag(flags, told, alive) && i <= |told|
    ensures flags[i] <==> exists j: nat :: RaisedAt(told, alive, j, i)
    decreases i
  {
    if i > 0 {
      FlagIsRaised(flags, told, alive, i - 1);
      var last := told[i - 1];
      forall j: nat ensures RaisedAt(told, alive, j, i) <==>
        alive[i] && ((last == None && RaisedAt(told, alive, j, i - 1)) || (last == Some(true) && j == i - 1))
      {
        RaisedStep(told, alive, j, i);
      }
      if told[i - 1] == Some(true) {
        assert RaisedAt(told, alive, i - 1, i);
      } else if flags[i] {
        var j: nat :| RaisedAt(told, alive, j, i - 1);
        assert RaisedAt(told, alive, j, i);
      }
    }
  }
}
