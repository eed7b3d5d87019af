/** Counting flags and summing integers over a sequence, with the facts the
    simulators' termination and progress arguments need when one entry changes. */
module Counting {

  function CountTrue(b: seq<bool>): (c: nat)
    ensures c <= |b|
  {
    if b == [] then 0 else (if b[0] then 1 else 0) + CountTrue(b[1..])
  }

  lemma {:induction false} CountTrueUpdate(b: seq<bool>, i: int, v: bool)
    requires 0 <= i < |b|
    ensures CountTrue(b[i := v]) == CountTrue(b) - (if b[i] then 1 else 0) + (if v then 1 else 0)
  {
    if i > 0 {
      CountTrueUpdate(b[1..], i - 1, v);
      assert b[i := v][1..] == b[1..][i - 1 := v];
    } else {
      assert b[i := v][1..] == b[1..];
    }
  }

  /** A count below the length leaves some flag unset. */
  lemma {:induction false} CountTrueMissing(b: seq<bool>) returns (i: int)
    requires CountTrue(b) < |b|
    ensures 0 <= i < |b| && !b[i]
  {
    if b[0] {
      var j := CountTrueMissing(b[1..]);
      i := j + 1;
    } else {
      i := 0;
    }
  }

  /** A full count means every flag is set. */
  lemma {:induction false} CountTrueFull(b: seq<bool>, i: int)
    requires CountTrue(b) == |b| && 0 <= i < |b|
    ensures b[i]
  {
    if i > 0 {
      CountTrueFull(b[1..], i - 1);
    }
  }

  /** An unset flag keeps the count below the length. */
  lemma CountTrueBelow(b: seq<bool>, i: int)
    requires 0 <= i < |b| && !b[i]
    ensures CountTrue(b) < |b|
  {
    if CountTrue(b) == |b| {
      CountTrueFull(b, i);
    }
  }

  lemma {:induction false} CountTrueNone(n: nat)
    ensures CountTrue(seq(n, _ => false)) == 0
  {
    if n > 0 {
      assert seq(n, _ => false)[1..] == seq(n - 1, _ => false);
      CountTrueNone(n - 1);
    }
  }

  function Sum(s: seq<int>): int
  {
    if s == [] then 0 else Sum(s[..|s| - 1]) + s[|s| - 1]
  }

  lemma {:induction false} SumUpdate(s: seq<int>, i: int, v: int)
    requires 0 <= i < |s|
    ensures Sum(s[i := v]) == Sum(s) - s[i] + v
  {
    var n := |s|;
    if i < n - 1 {
      SumUpdate(s[..n - 1], i, v);
      assert s[i := v][..n - 1] == s[..n - 1][i := v];
    } else {
      assert s[i := v][..n - 1] == s[..n - 1];
    }
  }

  lemma {:induction false} SumNonNegative(s: seq<int>)
    requires forall i :: 0 <= i < |s| ==> s[i] >= 0
    ensures Sum(s) >= 0
  {
    if s != [] {
      SumNonNegative(s[..|s| - 1]);
    }
  }

  lemma {:induction false} SumNonPositive(s: seq<int>)
    requires forall i :: 0 <= i < |s| ==> s[i] <= 0
    ensures Sum(s) <= 0
  {
    if s != [] {
      SumNonPositive(s[..|s| - 1]);
    }
  }

  /** The largest entry, 0 for an empty sequence. */
  function MaxOf(s: seq<int>): (m: int)
    ensures forall i :: 0 <= i < |s| ==> s[i] <= m
  {
    if s == [] then 0 else if s[0] < MaxOf(s[1..]) then MaxOf(s[1..]) else s[0]
  }
}
