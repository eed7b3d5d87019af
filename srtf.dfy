/** Shortest-Remaining-Time-First: a tick-by-tick preemptive simulation. At each tick
    the arrived, unfinished process with the strictly smallest positive remaining time
    (lowest index on ties) runs for one unit; when none is eligible the CPU idles. */
module Srtf {

  import opened Records
  import opened Counting
  import opened Selection
  import opened LoopState

  function Remaining(temp: seq<Process>): seq<int>
  {
    seq(|temp|, i requires 0 <= i < |temp| => temp[i].remaining)
  }

  /** Which processes the scan may choose at `clock`. */
  function Eligible(temp: seq<Process>, done: seq<bool>, clock: int): seq<bool>
    requires |temp| == |done|
  {
    seq(|temp|, i requires 0 <= i < |temp| => temp[i].arrival <= clock && !done[i] && temp[i].remaining > 0)
  }

  function Selected(s: State): int
    requires |s.temp| == |s.done|
  {
    Pick(Remaining(s.temp), Eligible(s.temp, s.done, s.clock))
  }

  /** One busy tick of process `k`: first-dispatch bookkeeping, one unit of work, and
      on reaching zero remaining time the completion, the flag and the write-back. */
  function Advance(s: State, k: int): (r: State)
    requires |s.temp| == |s.done| && 0 <= k < |s.temp|
    ensures |r.temp| == |r.done| == |s.done| && |r.procs| == |s.procs|
    ensures r.clock == s.clock + 1 && r.temp[k].started
    ensures r.temp[k].remaining == s.temp[k].remaining - 1
    ensures r.done[k] == (s.done[k] || r.temp[k].remaining == 0)
    ensures r.completed == s.completed + (if r.temp[k].remaining == 0 then 1 else 0)
    ensures r.temp[k].remaining == 0 ==> Settled(r.temp[k]) && r.temp[k].completion == r.clock
    ensures r.temp == s.temp[k := r.temp[k]] && r.done == s.done[k := r.done[k]]
  {
    var p := Dispatch(s.temp[k], s.clock);
    var p := p.(remaining := p.remaining - 1);
    var clock := s.clock + 1;
    if p.remaining == 0 then
      var p := Finish(p, clock);
      State(WrittenBack(s.procs, p), s.temp[k := p], s.done[k := true], clock, s.completed + 1)
    else
      s.(temp := s.temp[k := p], clock := clock)
  }

  /** One iteration of the `while (completed != n)` loop. */
  function Step(s: State): (r: State)
    requires |s.temp| == |s.done|
    ensures |r.temp| == |r.done| == |s.done| && |r.procs| == |s.procs|
    ensures r.clock == s.clock + 1
    ensures r.completed == s.completed || r.completed == s.completed + 1
  {
    var k := Selected(s);
    if k < 0 then s.(clock := s.clock + 1) else Advance(s, k)
  }

  /** The states from which the loop is known to make progress: a completed process
      has no time left and every other one has a remaining time the scan can select. */
  ghost predicate Live(s: State)
  {
    && Counted(s)
    && forall i :: 0 <= i < |s.temp| ==>
         if s.done[i] then s.temp[i].remaining == 0 else 0 < s.temp[i].remaining < INT_MAX
  }

  lemma InitLive(ps: seq<Process>)
    requires forall i :: 0 <= i < |ps| ==> 0 < ps[i].remaining < INT_MAX
    ensures Live(Init(ps))
  {
  }

  lemma RemainingUpdate(temp: seq<Process>, k: int, p: Process)
    requires 0 <= k < |temp|
    ensures Sum(Remaining(temp[k := p])) == Sum(Remaining(temp)) - temp[k].remaining + p.remaining
  {
    assert Remaining(temp[k := p]) == Remaining(temp)[k := p.remaining];
    SumUpdate(Remaining(temp), k, p.remaining);
  }

  /** When the scan finds nothing, some unfinished process has yet to arrive. */
  lemma IdleBeforeArrival(s: State)
    requires Live(s) && s.completed != |s.done| && Selected(s) < 0
    ensures s.clock < MaxOf(Arrivals(s.temp))
  {
    var i := CountTrueMissing(s.done);
    assert Remaining(s.temp)[i] == s.temp[i].remaining < INT_MAX;
    assert !Eligible(s.temp, s.done, s.clock)[i];
    assert Arrivals(s.temp)[i] == s.temp[i].arrival > s.clock;
  }

  /** A busy tick of a selectable process keeps the state live and uses up exactly one
      unit of the total remaining time. */
  lemma AdvanceLive(s: State, k: int)
    requires Live(s) && 0 <= k < |s.temp| && !s.done[k] && s.temp[k].remaining > 0
    ensures Live(Advance(s, k))
    ensures Sum(Remaining(Advance(s, k).temp)) == Sum(Remaining(s.temp)) - 1
  {
    FlagCounted(s, k);
    var r := Advance(s, k);
    RemainingUpdate(s.temp, k, r.temp[k]);
    assert Counted(r);
  }

  /** Each iteration from a live state keeps it live and either does one unit of work
      or idles towards a pending arrival. */
  lemma StepProgress(s: State)
    requires Live(s) && s.completed != |s.done|
    ensures Live(Step(s))
    ensures Sum(Remaining(s.temp)) >= 0
    ensures Sum(Remaining(Step(s).temp)) == Sum(Remaining(s.temp)) - 1
         || (Step(s).temp == s.temp && s.clock < Step(s).clock <= MaxOf(Arrivals(s.temp)))
  {
    SumNonNegative(Remaining(s.temp));
    var k := Selected(s);
    if k < 0 {
      IdleBeforeArrival(s);
    } else {
      assert Eligible(s.temp, s.done, s.clock)[k];
      AdvanceLive(s, k);
    }
  }

  /** The loop run to its end, from a live state. It reads like Priority's `Run`, but
      iterates this module's `Step` and stops for a different reason: each busy tick
      uses one unit of the total remaining time. */
  ghost function Run(s: State): (r: State)
    requires Live(s)
    ensures Live(r) && r.completed == |r.done|
    decreases Sum(Remaining(s.temp)), MaxOf(Arrivals(s.temp)) - s.clock
  {
    if s.completed == |s.done| then s
    else
      StepProgress(s);
      Run(Step(s))
  }

  /** What the simulator leaves behind for an input list whose remaining times can all
      be selected. */
  ghost function Outcome(ps: seq<Process>): (r: State)
    requires forall i :: 0 <= i < |ps| ==> 0 < ps[i].remaining < INT_MAX
    ensures Live(r) && r.completed == |r.done|
  {
    InitLive(ps);
    Run(Init(ps))
  }

  /** The scan of `SRTF`: the first arrived, unfinished process with the strictly
      smallest positive remaining time below INT_MAX, or -1. */
  method ShortestRemaining(temp: array<Process>, done: array<bool>, clock: int) returns (idx: int)
    requires temp.Length == done.Length
    ensures idx == Pick(Remaining(temp[..]), Eligible(temp[..], done[..], clock))
  {
    ghost var keys, ok := Remaining(temp[..]), Eligible(temp[..], done[..], clock);
    var shortest := INT_MAX;
    idx := -1;
    for i := 0 to temp.Length
      invariant idx == ScanUpTo(keys, ok, i)
      invariant shortest == if idx < 0 then INT_MAX else keys[idx]
    {
      assert keys[i] == temp[i].remaining;
      assert ok[i] == (temp[i].arrival <= clock && !done[i] && temp[i].remaining > 0);
      if temp[i].arrival <= clock && !done[i] && temp[i].remaining < shortest && temp[i].remaining > 0 {
        shortest := temp[i].remaining;
        idx := i;
      }
    }
  }

  /** One busy tick of process `k` on the simulator's arrays. */
  method Tick(procs: array<Process>, temp: array<Process>, done: array<bool>, k: int,
              clock: int, completed: int) returns (clock': int, completed': int)
    requires temp.Length == done.Length && 0 <= k < temp.Length && procs != temp
    modifies procs, temp, done
    ensures var r := Advance(State(old(procs[..]), old(temp[..]), old(done[..]), clock, completed), k);
      procs[..] == r.procs && temp[..] == r.temp && done[..] == r.done
      && clock' == r.clock && completed' == r.completed
  {
    var p := temp[k];
    if !p.started {
      p := p.(response := clock - p.arrival, started := true);
    }
    p := p.(remaining := p.remaining - 1);
    clock' := clock + 1;
    completed' := completed;
    if p.remaining == 0 {
      p := p.(completion := clock');
      p := p.(turnaround := p.completion - p.arrival);
      p := p.(waiting := p.turnaround - p.burst);
      done[k] := true;
      completed' := completed + 1;
      temp[k] := p;
      WriteBack(procs, p);
    } else {
      temp[k] := p;
    }
  }

  /** One iteration of the loop on the simulator's arrays: the scan, then an idle
      tick or a busy tick of the process it found. */
  method Iteration(procs: array<Process>, temp: array<Process>, done: array<bool>,
                   clock: int, completed: int) returns (clock': int, completed': int)
    requires temp.Length == done.Length && procs != temp
    modifies procs, temp, done
    ensures State(procs[..], temp[..], done[..], clock', completed')
         == Step(State(old(procs[..]), old(temp[..]), old(done[..]), clock, completed))
  {
    var k := ShortestRemaining(temp, done, clock);
    if k == -1 {
      clock', completed' := clock + 1, completed;
    } else {
      clock', completed' := Tick(procs, temp, done, k, clock, completed);
    }
  }

  /** SRTF on the caller's list; the result and the returned clock are those of the
      reference loop `Run`. */
  method SRTF(procs: array<Process>) returns (makespan: int)
    requires forall i :: 0 <= i < procs.Length ==> 0 < procs[i].remaining < INT_MAX
    modifies procs
    ensures procs[..] == Outcome(old(procs[..])).procs
    ensures makespan == Outcome(old(procs[..])).clock
  {
    var n := procs.Length;
    var temp := new Process[n](i requires 0 <= i < n reads procs => procs[i]);
    var done := new bool[n](_ => false);
    var completed := 0;
    var clock := 0;
    ghost var s0 := Init(procs[..]);
    InitLive(procs[..]);
    assert State(procs[..], temp[..], done[..], clock, completed) == s0;
    while completed != n
      invariant temp.Length == n && done.Length == n && fresh(temp) && fresh(done)
      invariant Live(State(procs[..], temp[..], done[..], clock, completed))
      invariant Run(State(procs[..], temp[..], done[..], clock, completed)) == Run(s0)
      decreases Sum(Remaining(temp[..])), MaxOf(Arrivals(temp[..])) - clock
    {
      StepProgress(State(procs[..], temp[..], done[..], clock, completed));
      clock, completed := Iteration(procs, temp, done, clock, completed);
    }
    makespan := clock;
  }

  /** What SRTF keeps true of one process: `p` is its input record, `t` its working
      copy and `q` its record in the caller's list. The remaining time stays within
      [0, burst]; once started, the time since the first dispatch covers the work done;
      a completed process has been written back with consistent times. */
  ghost predicate Tracked(p: Process, t: Process, q: Process, done: bool, clock: int)
  {
    && SameIdentity(t, p)
    && 0 <= t.remaining <= p.burst
    && (if t.started
        then 0 <= t.response && t.arrival + t.response + (p.burst - t.remaining) <= clock
        else t.remaining == p.burst)
    && (if done
        then q == t && t.started && t.remaining == 0 && Settled(t) && t.completion <= clock
             && 0 <= t.response <= t.waiting
        else q == p)
  }

  ghost predicate Inv(orig: seq<Process>, s: State)
  {
    && Live(s)
    && |s.procs| == |s.temp| == |orig|
    && UniqueIds(orig)
    && TotalBurst(orig) - Sum(Remaining(s.temp)) <= s.clock
    && forall i :: 0 <= i < |orig| ==> Tracked(orig[i], s.temp[i], s.procs[i], s.done[i], s.clock)
  }

  predicate ValidInput(orig: seq<Process>)
  {
    && AllPristine(orig)
    && UniqueIds(orig)
    && forall i :: 0 <= i < |orig| ==> 0 < orig[i].burst < INT_MAX
  }

  lemma InitInv(orig: seq<Process>)
    requires ValidInput(orig)
    ensures Inv(orig, Init(orig))
  {
    InitLive(orig);
    assert Remaining(orig) == Bursts(orig);
  }

  lemma IdleInv(orig: seq<Process>, s: State)
    requires Inv(orig, s)
    ensures Inv(orig, s.(clock := s.clock + 1))
  {
  }

  /** The tracked facts of the process that runs for the tick. */
  lemma AdvanceTracksRunner(orig: seq<Process>, s: State, k: int)
    requires Inv(orig, s) && 0 <= k < |s.temp| && !s.done[k] && s.temp[k].remaining > 0
    requires s.temp[k].arrival <= s.clock
    ensures
      var r := Advance(s, k);
      && |r.procs| == |s.procs|
      && Tracked(orig[k], r.temp[k], r.procs[k], r.done[k], r.clock)
      && forall i :: 0 <= i < |s.procs| && i != k ==> r.procs[i] == s.procs[i]
  {
    UniqueIdsTransfer(orig, s.procs);
    var p := Dispatch(s.temp[k], s.clock);
    var q := p.(remaining := p.remaining - 1);
    if q.remaining == 0 {
      WrittenBackAt(s.procs, k, Finish(q, s.clock + 1));
    }
  }

  lemma AdvanceInv(orig: seq<Process>, s: State, k: int)
    requires Inv(orig, s) && 0 <= k < |s.temp| && !s.done[k] && s.temp[k].remaining > 0
    requires s.temp[k].arrival <= s.clock
    ensures Inv(orig, Advance(s, k))
  {
    AdvanceLive(s, k);
    AdvanceTracksRunner(orig, s, k);
  }

  lemma StepInv(orig: seq<Process>, s: State)
    requires Inv(orig, s) && s.completed != |s.done|
    ensures Inv(orig, Step(s))
  {
    var k := Selected(s);
    if k < 0 {
      IdleInv(orig, s);
    } else {
      assert Eligible(s.temp, s.done, s.clock)[k];
      AdvanceInv(orig, s, k);
    }
  }

  /** Follows `Run`, and therefore its measure, which is why it is not shared with
      Priority's `RunInv`. */
  lemma {:induction false} RunInv(orig: seq<Process>, s: State)
    requires Inv(orig, s)
    ensures Inv(orig, Run(s))
    decreases Sum(Remaining(s.temp)), MaxOf(Arrivals(s.temp)) - s.clock
  {
    if s.completed != |s.done| {
      StepProgress(s);
      StepInv(orig, s);
      RunInv(orig, Step(s));
    }
  }

  /** When the loop stops every process is completed, so each invariant fact about a
      completed process holds of every process, and no remaining time is left. */
  lemma Finished(orig: seq<Process>, r: State)
    requires Inv(orig, r) && r.completed == |r.done|
    ensures forall i :: 0 <= i < |orig| ==>
      var q := r.procs[i];
      && SameIdentity(q, orig[i]) && Settled(q) && q.started && q.remaining == 0
      && 0 <= q.response <= q.waiting && q.completion <= r.clock
    ensures TotalBurst(orig) <= r.clock
  {
    forall i | 0 <= i < |orig|
      ensures r.done[i]
    {
      CountTrueFull(r.done, i);
    }
    SumNonPositive(Remaining(r.temp));
  }

  /** What SRTF delivers for a list of freshly constructed records: every process is
      written back, in its input position and with its input identity, finished, with
      0 <= response <= waiting, turnaround == completion - arrival and a completion no
      later than the returned clock; and the CPU time used (the sum of the bursts) fits
      in the returned clock. */
  lemma Outcomes(orig: seq<Process>)
    requires ValidInput(orig)
    ensures |Outcome(orig).procs| == |orig|
    ensures forall i :: 0 <= i < |orig| ==>
      var q := Outcome(orig).procs[i];
      && SameIdentity(q, orig[i]) && Settled(q) && q.started && q.remaining == 0
      && 0 <= q.response <= q.waiting && q.completion <= Outcome(orig).clock
    ensures TotalBurst(orig) <= Outcome(orig).clock
  {
    InitInv(orig);
    RunInv(orig, Init(orig));
    Finished(orig, Outcome(orig));
  }

  /** The scan's choice in a live state: it idles exactly when no unfinished process
      has arrived, and otherwise picks an arrived, unfinished process whose remaining
      time is no larger than any other's and strictly smaller than that of every
      eligible process before it. */
  lemma Choice(s: State)
    requires Live(s)
    ensures Selected(s) < 0 <==> forall i :: 0 <= i < |s.temp| ==> s.done[i] || s.temp[i].arrival > s.clock
    ensures Selected(s) >= 0 ==>
      var k := Selected(s);
      && k < |s.temp| && !s.done[k] && s.temp[k].arrival <= s.clock
      && (forall i :: 0 <= i < |s.temp| && !s.done[i] && s.temp[i].arrival <= s.clock ==>
            s.temp[k].remaining <= s.temp[i].remaining)
      && (forall i :: 0 <= i < k && !s.done[i] && s.temp[i].arrival <= s.clock ==>
            s.temp[k].remaining < s.temp[i].remaining)
  {
    var keys, ok := Remaining(s.temp), Eligible(s.temp, s.done, s.clock);
    assert forall i :: 0 <= i < |s.temp| ==> keys[i] == s.temp[i].remaining;
    assert forall i :: 0 <= i < |s.temp| ==>
      (ok[i] <==> !s.done[i] && s.temp[i].arrival <= s.clock);
  }

  /** `n` iterations of the loop body, whether or not the loop would have stopped. */
  function Iterate(s: State, n: nat): (r: State)
    requires |s.temp| == |s.done|
    ensures |r.temp| == |r.done| == |s.done|
    decreases n
  {
    if n == 0 then s else Iterate(Step(s), n - 1)
  }

  /** An unfinished process without remaining time is never eligible, so it stays
      unfinished through any step. */
  lemma StepKeepsStuck(s: State, i: int)
    requires Counted(s) && 0 <= i < |s.done| && !s.done[i] && s.temp[i].remaining <= 0
    ensures Counted(Step(s)) && !Step(s).done[i] && Step(s).temp[i].remaining <= 0
  {
    var k := Selected(s);
    if k >= 0 {
      assert Eligible(s.temp, s.done, s.clock)[k];
      FlagCounted(s, k);
    }
  }

  /** A zero burst makes SRTF run forever: however many iterations pass, `completed`
      stays below n, so `while (completed != n)` never exits. */
  lemma {:induction false} ZeroBurstNeverFinishes(s: State, i: int, steps: nat)
    requires Counted(s) && 0 <= i < |s.done| && !s.done[i] && s.temp[i].remaining <= 0
    ensures Iterate(s, steps).completed < |s.done|
    decreases steps
  {
    if steps == 0 {
      CountTrueBelow(s.done, i);
    } else {
      StepKeepsStuck(s, i);
      ZeroBurstNeverFinishes(Step(s), i, steps - 1);
    }
  }
}
