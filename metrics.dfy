/** The integer accumulation of `printMetrics`: one pass over the finished records adds
    up turnaround, waiting and response times and the bursts. The divisions that turn
    these sums into averages, utilisation and throughput are done in floating point and
    are not part of this model. */
module Metrics {

  import opened Counting
  import opened Records
  import Sjf
  import Srtf
  import PriorityScheduling
  import RoundRobin

  datatype Totals = Totals(turnaround: int, waiting: int, response: int, burst: int)

  function Turnarounds(ps: seq<Process>): seq<int>
  {
    seq(|ps|, i requires 0 <= i < |ps| => ps[i].turnaround)
  }

  function Waitings(ps: seq<Process>): seq<int>
  {
    seq(|ps|, i requires 0 <= i < |ps| => ps[i].waiting)
  }

  function Responses(ps: seq<Process>): seq<int>
  {
    seq(|ps|, i requires 0 <= i < |ps| => ps[i].response)
  }

  /** The four sums over every record. */
  function Totalled(ps: seq<Process>): Totals
  {
    Totals(Sum(Turnarounds(ps)), Sum(Waitings(ps)), Sum(Responses(ps)), TotalBurst(ps))
  }

  /** Adding one more record to the pass adds its fields to the sums. */
  lemma TotalledNext(ps: seq<Process>, i: int)
    requires 0 <= i < |ps|
    ensures var t := Totalled(ps[..i]);
      Totalled(ps[..i + 1])
        == Totals(t.turnaround + ps[i].turnaround, t.waiting + ps[i].waiting,
                  t.response + ps[i].response, t.burst + ps[i].burst)
  {
    var s := ps[..i + 1];
    assert s[..i] == ps[..i];
    assert Turnarounds(s)[..i] == Turnarounds(ps[..i]);
    assert Waitings(s)[..i] == Waitings(ps[..i]);
    assert Responses(s)[..i] == Responses(ps[..i]);
    assert Bursts(s)[..i] == Bursts(ps[..i]);
  }

  /** The accumulation loop of `printMetrics`, in the order of the vector. */
  method SumMetrics(ps: seq<Process>) returns (t: Totals)
    ensures t == Totalled(ps)
  {
    t := Totals(0, 0, 0, 0);
    for i := 0 to |ps|
      invariant t == Totalled(ps[..i])
    {
      TotalledNext(ps, i);
      t := Totals(t.turnaround + ps[i].turnaround, t.waiting + ps[i].waiting,
                  t.response + ps[i].response, t.burst + ps[i].burst);
    }
    assert ps[..|ps|] == ps;
  }

  /** When every record is settled, the turnaround total is the waiting total plus the
      CPU time the records asked for. */
  lemma {:induction false} Balance(ps: seq<Process>)
    requires forall i :: 0 <= i < |ps| ==> Settled(ps[i])
    ensures Totalled(ps).turnaround == Totalled(ps).waiting + Totalled(ps).burst
  {
    if ps != [] {
      var n := |ps| - 1;
      Balance(ps[..n]);
      TotalledNext(ps, n);
      assert ps[..n + 1] == ps;
    }
  }

  /** Record-wise relations between response and waiting time carry over to the totals. */
  lemma {:induction false} ResponseTotals(ps: seq<Process>)
    ensures (forall i :: 0 <= i < |ps| ==> ps[i].response == ps[i].waiting) ==>
      Totalled(ps).response == Totalled(ps).waiting
    ensures (forall i :: 0 <= i < |ps| ==> ps[i].response <= ps[i].waiting) ==>
      Totalled(ps).response <= Totalled(ps).waiting
  {
    if ps != [] {
      var n := |ps| - 1;
      ResponseTotals(ps[..n]);
      TotalledNext(ps, n);
      assert ps[..n + 1] == ps;
    }
  }

  /** Non-negative response times give a non-negative response total. */
  lemma NonNegativeResponses(ps: seq<Process>)
    requires forall i :: 0 <= i < |ps| ==> ps[i].response >= 0
    ensures Totalled(ps).response >= 0
  {
    SumNonNegative(Responses(ps));
  }

  /** A simulator that keeps each record's identity keeps the burst total. */
  lemma SameBursts(ps: seq<Process>, orig: seq<Process>)
    requires |ps| == |orig| && forall i :: 0 <= i < |ps| ==> SameIdentity(ps[i], orig[i])
    ensures Totalled(ps).burst == TotalBurst(orig)
  {
    assert Bursts(ps) == Bursts(orig);
  }

  /** What the SJF results add up to: a balanced account with equal response and waiting
      totals, neither negative. */
  lemma SjfTotals(orig: seq<Process>)
    requires Sjf.ValidInput(orig)
    ensures var t := Totalled(Sjf.Outcome(orig).procs);
      && t.turnaround == t.waiting + t.burst && t.burst == TotalBurst(orig)
      && t.response == t.waiting && t.response >= 0
  {
    Sjf.Outcomes(orig);
    var ps := Sjf.Outcome(orig).procs;
    Balance(ps);
    ResponseTotals(ps);
    NonNegativeResponses(ps);
    SameBursts(ps, orig);
  }

  /** The same for Priority Scheduling. */
  lemma PriorityTotals(orig: seq<Process>)
    requires PriorityScheduling.ValidInput(orig)
    ensures var t := Totalled(PriorityScheduling.Outcome(orig).procs);
      && t.turnaround == t.waiting + t.burst && t.burst == TotalBurst(orig)
      && t.response == t.waiting && t.response >= 0
  {
    PriorityScheduling.Outcomes(orig);
    var ps := PriorityScheduling.Outcome(orig).procs;
    Balance(ps);
    ResponseTotals(ps);
    NonNegativeResponses(ps);
    SameBursts(ps, orig);
  }

  /** Under preemption the response total can only fall below the waiting total. */
  lemma SrtfTotals(orig: seq<Process>)
    requires Srtf.ValidInput(orig)
    ensures var t := Totalled(Srtf.Outcome(orig).procs);
      && t.turnaround == t.waiting + t.burst && t.burst == TotalBurst(orig)
      && 0 <= t.response <= t.waiting
  {
    Srtf.Outcomes(orig);
    var ps := Srtf.Outcome(orig).procs;
    Balance(ps);
    ResponseTotals(ps);
    NonNegativeResponses(ps);
    SameBursts(ps, orig);
  }

  /** The same for Round Robin with the corrected dequeue. */
  lemma CorrectedRoundRobinTotals(orig: seq<Process>, quantum: int)
    requires RoundRobin.ValidInput(orig, quantum)
    ensures var t := Totalled(RoundRobin.Outcome(orig, quantum, RoundRobin.Corrected).procs);
      && t.turnaround == t.waiting + t.burst && t.burst == TotalBurst(orig)
      && 0 <= t.response <= t.waiting
  {
    RoundRobin.CorrectedOutcomes(orig, quantum);
    var ps := RoundRobin.Outcome(orig, quantum, RoundRobin.Corrected).procs;
    Balance(ps);
    ResponseTotals(ps);
    NonNegativeResponses(ps);
    SameBursts(ps, orig);
  }
}
