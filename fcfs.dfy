/** First-Come-First-Served: the records are sorted by arrival time and then served
    one after another by a single clock, each to completion. */
module Fcfs {

  import opened Records
  import opened Counting

  predicate ArrivalSorted(s: seq<Process>)
  {
    forall i, j :: 0 <= i < j < |s| ==> s[i].arrival <= s[j].arrival
  }

  /** The clock when the scan over the sorted list `s` reaches position `k`. */
  function ClockBefore(s: seq<Process>, k: nat): (c: int)
    requires k <= |s|
    ensures k > 0 ==> c - s[k - 1].burst >= s[k - 1].arrival
  {
    if k == 0 then 0 else Max(ClockBefore(s, k - 1), s[k - 1].arrival) + s[k - 1].burst
  }

  /** When the process at position `k` gets the CPU: the clock, or its arrival when
      the CPU has been idle until then. */
  function StartOf(s: seq<Process>, k: nat): (t: int)
    requires k < |s|
    ensures t >= s[k].arrival && t >= ClockBefore(s, k)
    ensures t == s[k].arrival || t == ClockBefore(s, k)
  {
    Max(ClockBefore(s, k), s[k].arrival)
  }

  /** Stands in for `std::sort` with the arrival comparator: only sortedness and
      permutation are promised, not the order of equal arrivals. */
  method SortByArrival(a: array<Process>)
    modifies a
    ensures ArrivalSorted(a[..])
    ensures multiset(a[..]) == multiset(old(a[..]))
  {
    var i := 0;
    while i < a.Length
      invariant 0 <= i <= a.Length
      invariant ArrivalSorted(a[..i])
      invariant multiset(a[..]) == multiset(old(a[..]))
    {
      InsertLast(a, i);
      i := i + 1;
    }
  }

  /** Moves `a[i]` left past the records that arrive later, so that `a[..i + 1]` is sorted. */
  method InsertLast(a: array<Process>, i: int)
    requires 0 <= i < a.Length && ArrivalSorted(a[..i])
    modifies a
    ensures ArrivalSorted(a[..i + 1])
    ensures multiset(a[..]) == multiset(old(a[..]))
  {
    var j := i;
    while j > 0 && a[j - 1].arrival > a[j].arrival
      invariant 0 <= j <= i
      invariant multiset(a[..]) == multiset(old(a[..]))
      invariant forall k, l :: 0 <= k < l <= i && k != j && l != j ==> a[k].arrival <= a[l].arrival
      invariant forall l :: j < l <= i ==> a[j].arrival < a[l].arrival
    {
      Swap(a, j - 1, j);
      j := j - 1;
    }
  }

  method Swap(a: array<Process>, i: int, j: int)
    requires 0 <= i < j < a.Length
    modifies a
    ensures a[i] == old(a[j]) && a[j] == old(a[i])
    ensures forall k :: 0 <= k < a.Length && k != i && k != j ==> a[k] == old(a[k])
    ensures multiset(a[..]) == multiset(old(a[..]))
  {
    a[i], a[j] := a[j], a[i];
    assert a[..] == old(a[..])[i := old(a[j])][j := old(a[i])];
  }

  /** FCFS on the caller's list: `order` is the arrival-sorted permutation the sort
      produced, each record is served at `StartOf` its position, and the returned
      clock is the one after the last process. */
  method FCFS(a: array<Process>) returns (makespan: int, ghost order: seq<Process>)
    modifies a
    ensures ArrivalSorted(order) && multiset(order) == multiset(old(a[..]))
    ensures |order| == a.Length
    ensures forall k :: 0 <= k < a.Length ==> a[k] == ServedAt(order, k)
    ensures makespan == ClockBefore(order, a.Length)
  {
    SortByArrival(a);
    order := a[..];
    makespan := ServeInOrder(a);
  }

  /** The scan after the sort: one clock, each process served to completion in list order. */
  method ServeInOrder(a: array<Process>) returns (clock: int)
    modifies a
    ensures forall k :: 0 <= k < a.Length ==> a[k] == ServedAt(old(a[..]), k)
    ensures clock == ClockBefore(old(a[..]), a.Length)
  {
    ghost var order := a[..];
    clock := 0;
    for k := 0 to a.Length
      invariant clock == ClockBefore(order, k)
      invariant a[k..] == order[k..]
      invariant forall j :: 0 <= j < k ==> a[j] == ServedAt(order, j)
    {
      clock := Serve(a, k, clock);
    }
  }

  /** One step of the scan: the CPU idles until the process at `k` arrives if it is
      not there yet, then runs it to completion. */
  method Serve(a: array<Process>, k: int, clock: int) returns (next: int)
    requires 0 <= k < a.Length
    modifies a
    ensures a[..] == old(a[..])[k := RunToEnd(old(a[k]), Max(clock, old(a[k]).arrival))]
    ensures next == Max(clock, old(a[k]).arrival) + old(a[k]).burst
  {
    var p := a[k];
    var now := clock;
    if now < p.arrival {
      now := p.arrival;
    }
    p := p.(response := now - p.arrival);
    p := p.(completion := now + p.burst);
    p := p.(turnaround := p.completion - p.arrival);
    p := p.(waiting := p.turnaround - p.burst);
    a[k] := p;
    next := p.completion;
  }

  /** The record of the process at position `k` once it has been served: identity
      kept, response and waiting time equal and never negative, and completion a burst
      after the start. */
  function ServedAt(s: seq<Process>, k: nat): (q: Process)
    requires k < |s|
    ensures SameIdentity(q, s[k]) && Settled(q)
    ensures 0 <= q.response == q.waiting && q.completion == CompletionOf(s, k)
  {
    RunToEnd(s[k], StartOf(s, k))
  }

  /** The completion time of the process at position `k`. */
  function CompletionOf(s: seq<Process>, k: nat): int
    requires k < |s|
  {
    StartOf(s, k) + s[k].burst
  }

  predicate NonNegativeBursts(s: seq<Process>)
  {
    forall i :: 0 <= i < |s| ==> s[i].burst >= 0
  }

  /** One CPU: a process starts only after every earlier one has completed. */
  lemma {:induction false} NoOverlap(s: seq<Process>, j: nat, k: nat)
    requires j < k < |s| && NonNegativeBursts(s)
    ensures CompletionOf(s, j) <= StartOf(s, k)
  {
    if k > j + 1 {
      NoOverlap(s, j, k - 1);
    }
  }

  /** Completion times grow along the sorted order. */
  lemma CompletionsNondecreasing(s: seq<Process>, j: nat, k: nat)
    requires j <= k < |s| && NonNegativeBursts(s)
    ensures CompletionOf(s, j) <= CompletionOf(s, k)
  {
    if j < k {
      NoOverlap(s, j, k);
    }
  }

  /** The returned clock is the completion time of the last process, and no process
      completes after it. */
  lemma MakespanIsLastCompletion(s: seq<Process>)
    requires NonNegativeBursts(s)
    ensures |s| == 0 ==> ClockBefore(s, |s|) == 0
    ensures |s| > 0 ==> ClockBefore(s, |s|) == CompletionOf(s, |s| - 1)
    ensures forall k :: 0 <= k < |s| ==> CompletionOf(s, k) <= ClockBefore(s, |s|)
  {
    forall k | 0 <= k < |s|
      ensures CompletionOf(s, k) <= ClockBefore(s, |s|)
    {
      CompletionsNondecreasing(s, k, |s| - 1);
    }
  }

  /** The CPU is busy for at most the elapsed time: the bursts of the first `k`
      processes add up to no more than the clock when position `k` is reached. */
  lemma {:induction false} BusyWithinClock(s: seq<Process>, k: nat)
    requires k <= |s|
    ensures TotalBurst(s[..k]) <= ClockBefore(s, k)
  {
    if k > 0 {
      BusyWithinClock(s, k - 1);
      assert Bursts(s[..k])[..k - 1] == Bursts(s[..k - 1]);
    }
  }

  /** With every process present at time 0 the CPU never idles: the clock is exactly
      the sum of the bursts served so far. */
  lemma {:induction false} NoIdleWhenAllPresent(s: seq<Process>, k: nat)
    requires k <= |s| && NonNegativeBursts(s)
    requires forall i :: 0 <= i < |s| ==> s[i].arrival <= 0
    ensures ClockBefore(s, k) == TotalBurst(s[..k])
  {
    if k > 0 {
      NoIdleWhenAllPresent(s, k - 1);
      assert Bursts(s[..k])[..k - 1] == Bursts(s[..k - 1]);
      SumNonNegative(Bursts(s[..k - 1]));
    }
  }
}
