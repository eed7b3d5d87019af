/** Non-preemptive static-priority scheduling: at each iteration the arrived,
    unfinished process with the strictly smallest priority value (lowest index on ties)
    runs to completion; when none has arrived the CPU idles for one tick. */
module PriorityScheduling {

  import opened Records
  import opened Counting
  import opened Selection
  import opened LoopState

  function Priorities(temp: seq<Process>): seq<int>
  {
    seq(|temp|, i requires 0 <= i < |temp| => temp[i].priority)
  }

  /** Which processes the scan may choose at `clock`. */
  function Eligible(temp: seq<Process>, done: seq<bool>, clock: int): seq<bool>
    requires |temp| == |done|
  {
    seq(|temp|, i requires 0 <= i < |temp| => temp[i].arrival <= clock && !done[i])
  }

  function Selected(s: State): int
    requires |s.temp| == |s.done|
  {
    Pick(Priorities(s.temp), Eligible(s.temp, s.done, s.clock))
  }

  /** Process `k` runs to completion: first-dispatch bookkeeping, the clock moves on by
      its burst, it is completed, flagged and written back. */
  function Advance(s: State, k: int): (r: State)
    requires |s.temp| == |s.done| && 0 <= k < |s.temp|
    ensures |r.temp| == |r.done| == |s.done| && |r.procs| == |s.procs|
    ensures r.clock == s.clock + s.temp[k].burst && r.done[k] && r.completed == s.completed + 1
    ensures r.temp[k].started && Settled(r.temp[k]) && r.temp[k].completion == r.clock
    ensures SameIdentity(r.temp[k], s.temp[k]) && r.temp[k].remaining == s.temp[k].remaining
    ensures r.temp == s.temp[k := r.temp[k]] && r.done == s.done[k := r.done[k]]
  {
    var p := Dispatch(s.temp[k], s.clock);
    var clock := s.clock + p.burst;
    var p := Finish(p, clock);
    State(WrittenBack(s.procs, p), s.temp[k := p], s.done[k := true], clock, s.completed + 1)
  }

  /** One iteration of the `while (completed != n)` loop. */
  function Step(s: State): (r: State)
    requires |s.temp| == |s.done|
    ensures |r.temp| == |r.done| == |s.done| && |r.procs| == |s.procs|
    ensures Selected(s) < 0 ==>
      r.clock == s.clock + 1 && r.temp == s.temp && r.procs == s.procs && r.completed == s.completed
      && r.done == s.done
    ensures Selected(s) >= 0 ==>
      r.completed == s.completed + 1 && r.clock == s.clock + s.temp[Selected(s)].burst
  {
    var k := Selected(s);
    if k < 0 then s.(clock := s.clock + 1) else Advance(s, k)
  }

  /** The states from which the loop is known to make progress: every unfinished
      process has a priority the scan can select. */
  ghost predicate Live(s: State)
  {
    && Counted(s)
    && forall i :: 0 <= i < |s.temp| && !s.done[i] ==> s.temp[i].priority < INT_MAX
  }

  lemma InitLive(ps: seq<Process>)
    requires forall i :: 0 <= i < |ps| ==> ps[i].priority < INT_MAX
    ensures Live(Init(ps))
  {
  }

  /** When the scan finds nothing, some unfinished process has yet to arrive. */
  lemma IdleBeforeArrival(s: State)
    requires Live(s) && s.completed != |s.done| && Selected(s) < 0
    ensures s.clock < MaxOf(Arrivals(s.temp))
  {
    var i := CountTrueMissing(s.done);
    assert Priorities(s.temp)[i] == s.temp[i].priority < INT_MAX;
    assert !Eligible(s.temp, s.done, s.clock)[i];
    assert Arrivals(s.temp)[i] == s.temp[i].arrival > s.clock;
  }

  /** Each iteration from a live state keeps it live and either completes a process
      or idles towards a pending arrival. */
  lemma StepProgress(s: State)
    requires Live(s) && s.completed != |s.done|
    ensures Live(Step(s))
    ensures Step(s).completed == s.completed + 1
         || (Step(s).completed == s.completed && Step(s).temp == s.temp
             && s.clock < Step(s).clock <= MaxOf(Arrivals(s.temp)))
  {
    var k := Selected(s);
    if k < 0 {
      IdleBeforeArrival(s);
    } else {
      assert Eligible(s.temp, s.done, s.clock)[k];
      FlagCounted(s, k);
    }
  }

  /** The loop run to its end, from a live state. It reads like SRTF's `Run`, but
      iterates this module's `Step` and stops for a different reason: each busy
      iteration completes a process. */
  ghost function Run(s: State): (r: State)
    requires Live(s)
    ensures Live(r) && r.completed == |r.done|
    decreases |s.done| - s.completed, MaxOf(Arrivals(s.temp)) - s.clock
  {
    if s.completed == |s.done| then s
    else
      StepProgress(s);
      Run(Step(s))
  }

  /** What the simulator leaves behind for an input list whose priorities can all be
      selected. */
  ghost function Outcome(ps: seq<Process>): (r: State)
    requires forall i :: 0 <= i < |ps| ==> ps[i].priority < INT_MAX
    ensures Live(r) && r.completed == |r.done|
  {
    InitLive(ps);
    Run(Init(ps))
  }

  /** The scan of `PriorityScheduling`: the first arrived, unfinished process with the
      strictly smallest priority value below INT_MAX, or -1. */
  method HighestPriority(temp: array<Process>, done: array<bool>, clock: int) returns (idx: int)
    requires temp.Length == done.Length
    ensures idx == Pick(Priorities(temp[..]), Eligible(temp[..], done[..], clock))
  {
    ghost var keys, ok := Priorities(temp[..]), Eligible(temp[..], done[..], clock);
    var highest := INT_MAX;
    idx := -1;
    for i := 0 to temp.Length
      invariant idx == ScanUpTo(keys, ok, i)
      invariant highest == if idx < 0 then INT_MAX else keys[idx]
    {
      assert keys[i] == temp[i].priority;
      assert ok[i] == (temp[i].arrival <= clock && !done[i]);
      if temp[i].arrival <= clock && !done[i] && temp[i].priority < highest {
        highest := temp[i].priority;
        idx := i;
      }
    }
  }

  /** Process `k` runs to completion on the simulator's arrays. */
  method RunSelected(procs: array<Process>, temp: array<Process>, done: array<bool>, k: int,
                     clock: int, completed: int) returns (clock': int, completed': int)
    requires temp.Length == done.Length && 0 <= k < temp.Length && procs != temp
    modifies procs, temp, done
    ensures var r := Advance(State(old(procs[..]), old(temp[..]), old(done[..]), clock, completed), k);
      procs[..] == r.procs && temp[..] == r.temp && done[..] == r.done
      && clock' == r.clock && completed' == r.completed
  {
    var p := temp[k];
    if !p.started {
      p := p.(response := clock - p.arrival, started := true);
    }
    clock' := clock + p.burst;
    p := p.(completion := clock');
    p := p.(turnaround := p.completion - p.arrival);
    p := p.(waiting := p.turnaround - p.burst);
    temp[k] := p;
    done[k] := true;
    completed' := completed + 1;
    WriteBack(procs, p);
  }

  /** One iteration of the loop on the simulator's arrays: the scan, then an idle
      tick or the whole run of the process it found. */
  method Iteration(procs: array<Process>, temp: array<Process>, done: array<bool>,
                   clock: int, completed: int) returns (clock': int, completed': int)
    requires temp.Length == done.Length && procs != temp
    modifies procs, temp, done
    ensures State(procs[..], temp[..], done[..], clock', completed')
         == Step(State(old(procs[..]), old(temp[..]), old(done[..]), clock, completed))
  {
    var k := HighestPriority(temp, done, clock);
    if k == -1 {
      clock', completed' := clock + 1, completed;
    } else {
      clock', completed' := RunSelected(procs, temp, done, k, clock, completed);
    }
  }

  /** Priority scheduling on the caller's list; the result and the returned clock are
      those of the reference loop `Run`. */
  method Schedule(procs: array<Process>) returns (makespan: int)
    requires forall i :: 0 <= i < procs.Length ==> procs[i].priority < INT_MAX
    modifies procs
    ensures procs[..] == Outcome(old(procs[..])).procs
    ensures makespan == Outcome(old(procs[..])).clock
  {
    var n := procs.Length;
    var temp := new Process[n](i requires 0 <= i < n reads procs => procs[i]);
    var done := new bool[n](_ => false);
    var completed := 0;
    var clock := 0;
    ghost var s0 := Init(procs[..]);
    InitLive(procs[..]);
    assert State(procs[..], temp[..], done[..], clock, completed) == s0;
    while completed != n
      invariant temp.Length == n && done.Length == n && fresh(temp) && fresh(done)
      invariant Live(State(procs[..], temp[..], done[..], clock, completed))
      invariant Run(State(procs[..], temp[..], done[..], clock, completed)) == Run(s0)
      decreases n - completed, MaxOf(Arrivals(temp[..])) - clock
    {
      StepProgress(State(procs[..], temp[..], done[..], clock, completed));
      clock, completed := Iteration(procs, temp, done, clock, completed);
    }
    makespan := clock;
  }

  /** What Priority keeps true of one process: `p` is its input record, `t` its working
      copy and `q` its record in the caller's list. An unfinished process is untouched;
      a completed one was written back with response == waiting >= 0. */
  ghost predicate Tracked(p: Process, t: Process, q: Process, done: bool, clock: int)
  {
    if done
    then && q == t && SameIdentity(t, p) && t.remaining == p.remaining && t.started
         && Settled(t) && 0 <= t.response == t.waiting && t.completion <= clock
    else t == p && q == p
  }

  ghost predicate Inv(orig: seq<Process>, s: State)
  {
    && Live(s)
    && |s.procs| == |s.temp| == |orig|
    && UniqueIds(orig)
    && (forall i :: 0 <= i < |orig| ==> orig[i].burst >= 0 && !orig[i].started)
    && forall i :: 0 <= i < |orig| ==> Tracked(orig[i], s.temp[i], s.procs[i], s.done[i], s.clock)
  }

  /** Input the source's caller supplies: records that have not run, unique ids,
      bursts that do not move the clock backwards, selectable priorities. */
  predicate ValidInput(orig: seq<Process>)
  {
    && UniqueIds(orig)
    && forall i :: 0 <= i < |orig| ==>
         !orig[i].started && orig[i].burst >= 0 && orig[i].priority < INT_MAX
  }

  lemma InitInv(orig: seq<Process>)
    requires ValidInput(orig)
    ensures Inv(orig, Init(orig))
  {
    InitLive(orig);
  }

  lemma AdvanceTracksRunner(orig: seq<Process>, s: State, k: int)
    requires Inv(orig, s) && 0 <= k < |s.temp| && !s.done[k] && s.temp[k].arrival <= s.clock
    ensures
      var r := Advance(s, k);
      && |r.procs| == |s.procs|
      && Tracked(orig[k], r.temp[k], r.procs[k], r.done[k], r.clock)
      && forall i :: 0 <= i < |s.procs| && i != k ==> r.procs[i] == s.procs[i]
  {
    UniqueIdsTransfer(orig, s.procs);
    var p := Dispatch(s.temp[k], s.clock);
    WrittenBackAt(s.procs, k, Finish(p, s.clock + p.burst));
  }

  lemma StepInv(orig: seq<Process>, s: State)
    requires Inv(orig, s) && s.completed != |s.done|
    ensures Inv(orig, Step(s))
  {
    StepProgress(s);
    var k := Selected(s);
    if k >= 0 {
      assert Eligible(s.temp, s.done, s.clock)[k];
      AdvanceTracksRunner(orig, s, k);
    }
  }

  /** Follows `Run`, and therefore its measure, which is why it is not shared with
      SRTF's `RunInv`. */
  lemma {:induction false} RunInv(orig: seq<Process>, s: State)
    requires Inv(orig, s)
    ensures Inv(orig, Run(s))
    decreases |s.done| - s.completed, MaxOf(Arrivals(s.temp)) - s.clock
  {
    if s.completed != |s.done| {
      StepProgress(s);
      StepInv(orig, s);
      RunInv(orig, Step(s));
    }
  }

  /** When the loop stops every process is completed. */
  lemma Finished(orig: seq<Process>, r: State)
    requires Inv(orig, r) && r.completed == |r.done|
    ensures forall i :: 0 <= i < |orig| ==>
      var q := r.procs[i];
      && SameIdentity(q, orig[i]) && Settled(q) && q.started && q.remaining == orig[i].remaining
      && 0 <= q.response == q.waiting && q.completion <= r.clock
  {
    forall i | 0 <= i < |orig|
      ensures r.done[i]
    {
      CountTrueFull(r.done, i);
    }
  }

  /** What Priority scheduling delivers: every process is written back, in its input
      position and with its input identity, run to completion in one piece (response
      == waiting >= 0), with turnaround == completion - arrival and a completion no
      later than the returned clock; `remaining_time` is never touched. */
  lemma Outcomes(orig: seq<Process>)
    requires ValidInput(orig)
    ensures |Outcome(orig).procs| == |orig|
    ensures forall i :: 0 <= i < |orig| ==>
      var q := Outcome(orig).procs[i];
      && SameIdentity(q, orig[i]) && Settled(q) && q.started && q.remaining == orig[i].remaining
      && 0 <= q.response == q.waiting && q.completion <= Outcome(orig).clock
  {
    InitInv(orig);
    RunInv(orig, Init(orig));
    Finished(orig, Outcome(orig));
  }

  /** The scan's choice in a live state: it idles exactly when no unfinished process
      has arrived, and otherwise picks an arrived, unfinished process whose priority
      value is no larger than any other's and strictly smaller than that of every
      arrived, unfinished process before it. */
  lemma Choice(s: State)
    requires Live(s)
    ensures Selected(s) < 0 <==> forall i :: 0 <= i < |s.temp| ==> s.done[i] || s.temp[i].arrival > s.clock
    ensures Selected(s) >= 0 ==>
      var k := Selected(s);
      && k < |s.temp| && !s.done[k] && s.temp[k].arrival <= s.clock
      && (forall i :: 0 <= i < |s.temp| && !s.done[i] && s.temp[i].arrival <= s.clock ==>
            s.temp[k].priority <= s.temp[i].priority)
      && (forall i :: 0 <= i < k && !s.done[i] && s.temp[i].arrival <= s.clock ==>
            s.temp[k].priority < s.temp[i].priority)
  {
    var keys, ok := Priorities(s.temp), Eligible(s.temp, s.done, s.clock);
    assert forall i :: 0 <= i < |s.temp| ==> keys[i] == s.temp[i].priority;
    assert forall i :: 0 <= i < |s.temp| ==>
      (ok[i] <==> !s.done[i] && s.temp[i].arrival <= s.clock);
  }
}
