/** Round Robin with a time quantum. At each iteration the arrived, unqueued,
    unfinished processes are appended to a FIFO queue in index order; the front index
    is dequeued and runs for min(remaining, quantum) time units. A process that
    finishes is written back; a preempted one is pushed to the back after the
    processes that arrived during its quantum.

    `Variant` selects what a dequeue does to the dequeued index's `in_queue` flag:
    `AsWritten` clears it, as the source does, which lets the admission scan after a
    preemption enqueue the preempted index a second time; `Corrected` leaves it set
    while the process is on the CPU. */
module RoundRobin {

  import opened Records
  import opened Counting

  datatype Variant = AsWritten | Corrected

  /** The simulator's loop state: the caller's list, the working copy `temp`, the
      `remaining_time` vector, the `in_queue` flags, the ready queue (front first),
      the clock and the completion counter. */
  datatype State = State(
    procs: seq<Process>,
    temp: seq<Process>,
    rem: seq<int>,
    inQ: seq<bool>,
    queue: seq<int>,
    clock: int,
    completed: int)

  /** Before the first iteration: nothing is queued or flagged, every remaining time
      is the burst, and the clock and the counter are 0. */
  function Init(ps: seq<Process>): (r: State)
    ensures Sized(r) && |r.temp| == |ps| && r.queue == []
    ensures forall i :: 0 <= i < |ps| ==> r.rem[i] == ps[i].burst && !r.inQ[i]
    ensures r.clock == 0 && r.completed == 0
  {
    State(ps, ps, seq(|ps|, i requires 0 <= i < |ps| => ps[i].burst),
          seq(|ps|, _ => false), [], 0, 0)
  }

  /** The per-process vectors agree in length and the queue holds valid indices. */
  predicate Sized(s: State)
  {
    && |s.procs| == |s.temp| == |s.rem| == |s.inQ|
    && forall k :: 0 <= k < |s.queue| ==> 0 <= s.queue[k] < |s.temp|
  }

  /** The admission test of the scan. */
  predicate Admissible(s: State, i: int)
    requires Sized(s) && 0 <= i < |s.temp|
  {
    s.temp[i].arrival <= s.clock && !s.inQ[i] && s.rem[i] > 0
  }

  /** The indices below `i` that the scan admits, in ascending order. */
  function Admits(s: State, i: nat): (r: seq<int>)
    requires Sized(s) && i <= |s.temp|
    ensures forall k :: 0 <= k < |r| ==> 0 <= r[k] < i
  {
    if i == 0 then []
    else Admits(s, i - 1) + (if Admissible(s, i - 1) then [i - 1] else [])
  }

  /** The admission scan over every index: admitted indices join the back of the
      queue and get their flag set. */
  function Admit(s: State): (r: State)
    requires Sized(s)
    ensures Sized(r)
    ensures r.procs == s.procs && r.temp == s.temp && r.rem == s.rem
    ensures r.clock == s.clock && r.completed == s.completed
    ensures |s.queue| <= |r.queue| && r.queue[..|s.queue|] == s.queue
  {
    s.(queue := s.queue + Admits(s, |s.temp|),
       inQ := seq(|s.inQ|, i requires 0 <= i < |s.inQ| => s.inQ[i] || Admissible(s, i)))
  }

  /** One iteration of the `while (completed != n)` loop. */
  function Step(s: State, quantum: int, v: Variant): (r: State)
    requires Sized(s)
    ensures Sized(r)
  {
    var a := Admit(s);
    if a.queue == [] then a.(clock := a.clock + 1)
    else if a.rem[a.queue[0]] <= quantum then Complete(a, v)
    else Requeue(Admit(Preempt(a, quantum, v)), a.queue[0])
  }

  /** The dequeue of the front index: it leaves the queue, and under `AsWritten` its
      flag is cleared. */
  function Dequeued(a: State, v: Variant): (r: State)
    requires Sized(a) && a.queue != []
    ensures Sized(r)
    ensures r.procs == a.procs && r.temp == a.temp && r.rem == a.rem
    ensures r.clock == a.clock && r.completed == a.completed
    ensures [a.queue[0]] + r.queue == a.queue
    ensures v == AsWritten ==> !r.inQ[a.queue[0]]
    ensures v == Corrected ==> r.inQ == a.inQ
    ensures r.inQ == a.inQ[a.queue[0] := r.inQ[a.queue[0]]]
  {
    var idx := a.queue[0];
    a.(queue := a.queue[1..], inQ := if v == AsWritten then a.inQ[idx := false] else a.inQ)
  }

  /** The front process has at most a quantum left: it runs to the end, is completed
      and written back, and the counter goes up. */
  function Complete(a: State, v: Variant): (r: State)
    requires Sized(a) && a.queue != []
    ensures Sized(r) && |r.temp| == |a.temp|
    ensures var idx := a.queue[0];
      && r.clock == a.clock + a.rem[idx] && r.rem[idx] == 0 && r.completed == a.completed + 1
      && r.temp[idx].started && Settled(r.temp[idx]) && r.temp[idx].completion == r.clock
      && SameIdentity(r.temp[idx], a.temp[idx])
      && r.queue == a.queue[1..]
      && r.temp == a.temp[idx := r.temp[idx]] && r.rem == a.rem[idx := 0]
  {
    var d := Dequeued(a, v);
    var idx := a.queue[0];
    var clock := a.clock + a.rem[idx];
    var p := Finish(Dispatch(a.temp[idx], a.clock), clock);
    d.(procs := WrittenBack(a.procs, p), temp := a.temp[idx := p], rem := a.rem[idx := 0],
       clock := clock, completed := a.completed + 1)
  }

  /** The front process has more than a quantum left: it runs for one quantum. */
  function Preempt(a: State, quantum: int, v: Variant): (r: State)
    requires Sized(a) && a.queue != []
    ensures Sized(r) && |r.temp| == |a.temp|
    ensures var idx := a.queue[0];
      && r.clock == a.clock + quantum && r.rem[idx] == a.rem[idx] - quantum
      && r.temp[idx].started && SameIdentity(r.temp[idx], a.temp[idx])
      && r.procs == a.procs && r.completed == a.completed && r.queue == a.queue[1..]
      && r.temp == a.temp[idx := r.temp[idx]] && r.rem == a.rem[idx := r.rem[idx]]
      && r.inQ == a.inQ[idx := r.inQ[idx]]
  {
    var d := Dequeued(a, v);
    var idx := a.queue[0];
    d.(temp := a.temp[idx := Dispatch(a.temp[idx], a.clock)],
       rem := a.rem[idx := a.rem[idx] - quantum], clock := a.clock + quantum)
  }

  /** The preempted index goes to the back of the queue with its flag set. */
  function Requeue(b: State, idx: int): (r: State)
    requires Sized(b) && 0 <= idx < |b.temp|
    ensures Sized(r)
    ensures r.procs == b.procs && r.temp == b.temp && r.rem == b.rem
    ensures r.clock == b.clock && r.completed == b.completed
    ensures r.queue == b.queue + [idx] && r.inQ[idx]
    ensures r.inQ == b.inQ[idx := true]
  {
    b.(queue := b.queue + [idx], inQ := b.inQ[idx := true])
  }

  function Zeros(rem: seq<int>): seq<bool>
  {
    seq(|rem|, i requires 0 <= i < |rem| => rem[i] == 0)
  }

  /** The states from which the loop is known to make progress: a flagged process
      with time left is queued, no remaining time is negative, and the counter has
      reached at least the number of processes with no time left. */
  ghost predicate Live(s: State, quantum: int)
  {
    && Sized(s)
    && quantum > 0
    && (forall i :: 0 <= i < |s.temp| && s.inQ[i] && s.rem[i] > 0 ==> i in s.queue)
    && (forall i :: 0 <= i < |s.rem| ==> s.rem[i] >= 0)
    && CountTrue(Zeros(s.rem)) <= s.completed <= |s.temp|
  }

  lemma {:induction false} AdmitsMembers(s: State, i: nat)
    requires Sized(s) && i <= |s.temp|
    ensures forall j :: j in Admits(s, i) <==> 0 <= j < i && Admissible(s, j)
  {
    if i > 0 {
      AdmitsMembers(s, i - 1);
    }
  }

  /** Admission keeps every flagged process with time left queued, and changes
      nothing but the queue and the flags. */
  lemma AdmitKeeps(s: State)
    requires Sized(s)
    requires forall i :: 0 <= i < |s.temp| && s.inQ[i] && s.rem[i] > 0 ==> i in s.queue
    ensures var a := Admit(s);
      && (forall i :: 0 <= i < |a.temp| && a.inQ[i] && a.rem[i] > 0 ==> i in a.queue)
      && (a.queue == [] ==> s.queue == [] && forall i :: 0 <= i < |s.temp| ==> !Admissible(s, i))
  {
    AdmitsMembers(s, |s.temp|);
    var a := Admit(s);
    forall i | 0 <= i < |a.temp| && a.inQ[i] && a.rem[i] > 0
      ensures i in a.queue
    {
      if !s.inQ[i] {
        assert i in Admits(s, |s.temp|);
      }
    }
  }

  /** With nothing queued after admission, some unfinished process has yet to arrive. */
  lemma IdleBeforeArrival(s: State, quantum: int)
    requires Live(s, quantum) && s.completed != |s.temp| && Admit(s).queue == []
    ensures s.clock < MaxOf(Arrivals(s.temp))
  {
    AdmitKeeps(s);
    var i := CountTrueMissing(Zeros(s.rem));
    assert s.rem[i] > 0;
    assert !Admissible(s, i);
    assert Arrivals(s.temp)[i] == s.temp[i].arrival;
  }

  /** The measure of the loop: the counter, then the total remaining time, then the
      time until the last arrival. */
  ghost predicate Progress(s: State, r: State)
    requires Sized(s) && Sized(r)
  {
    || r.completed == s.completed + 1
    || (r.completed == s.completed && Sum(r.rem) < Sum(s.rem))
    || (r.completed == s.completed && r.rem == s.rem && s.clock < r.clock <= MaxOf(Arrivals(s.temp)))
  }

  /** A flagged process with time left other than the dequeued one stays queued. */
  lemma DequeueKeeps(a: State, v: Variant)
    requires Sized(a) && a.queue != []
    requires forall i :: 0 <= i < |a.temp| && a.inQ[i] && a.rem[i] > 0 ==> i in a.queue
    ensures var d := Dequeued(a, v);
      forall i :: 0 <= i < |d.temp| && i != a.queue[0] && d.inQ[i] && d.rem[i] > 0 ==> i in d.queue
  {
    var d := Dequeued(a, v);
    forall i | 0 <= i < |d.temp| && i != a.queue[0] && d.inQ[i] && d.rem[i] > 0
      ensures i in d.queue
    {
      var k :| 0 <= k < |a.queue| && a.queue[k] == i;
      assert d.queue[k - 1] == i;
    }
  }

  /** A dispatch that finishes the process keeps the loop live and counts one more. */
  lemma FinishLive(a: State, quantum: int, v: Variant)
    requires Sized(a) && quantum > 0 && a.queue != [] && a.rem[a.queue[0]] <= quantum
    requires forall i :: 0 <= i < |a.temp| && a.inQ[i] && a.rem[i] > 0 ==> i in a.queue
    requires forall i :: 0 <= i < |a.rem| ==> a.rem[i] >= 0
    requires CountTrue(Zeros(a.rem)) <= a.completed < |a.temp|
    ensures Live(Complete(a, v), quantum)
    ensures Arrivals(Complete(a, v).temp) == Arrivals(a.temp)
  {
    var idx := a.queue[0];
    var r := Complete(a, v);
    DequeueKeeps(a, v);
    CountTrueUpdate(Zeros(a.rem), idx, true);
    assert Zeros(r.rem) == Zeros(a.rem)[idx := true];
  }

  /** One quantum of the front process keeps every flagged process with time left
      queued (but possibly the preempted one), and lowers the total remaining time
      by the quantum without creating a zero. */
  lemma PreemptKeeps(a: State, quantum: int, v: Variant)
    requires Sized(a) && quantum > 0 && a.queue != [] && a.rem[a.queue[0]] > quantum
    requires forall i :: 0 <= i < |a.temp| && a.inQ[i] && a.rem[i] > 0 ==> i in a.queue
    requires forall i :: 0 <= i < |a.rem| ==> a.rem[i] >= 0
    ensures var m := Preempt(a, quantum, v);
      && (forall i :: 0 <= i < |m.temp| && i != a.queue[0] && m.inQ[i] && m.rem[i] > 0 ==> i in m.queue)
      && (forall i :: 0 <= i < |m.rem| ==> m.rem[i] >= 0)
      && Zeros(m.rem) == Zeros(a.rem)
      && Sum(m.rem) == Sum(a.rem) - quantum
      && Arrivals(m.temp) == Arrivals(a.temp)
      && m.completed == a.completed
  {
    PreemptQueued(a, quantum, v);
    PreemptRemaining(a, quantum, v);
  }

  lemma PreemptQueued(a: State, quantum: int, v: Variant)
    requires Sized(a) && a.queue != []
    requires forall i :: 0 <= i < |a.temp| && a.inQ[i] && a.rem[i] > 0 ==> i in a.queue
    ensures var m := Preempt(a, quantum, v);
      forall i :: 0 <= i < |m.temp| && i != a.queue[0] && m.inQ[i] && m.rem[i] > 0 ==> i in m.queue
  {
    var m := Preempt(a, quantum, v);
    DequeueKeeps(a, v);
    assert m.queue == Dequeued(a, v).queue && m.inQ == Dequeued(a, v).inQ;
  }

  lemma PreemptRemaining(a: State, quantum: int, v: Variant)
    requires Sized(a) && quantum > 0 && a.queue != [] && a.rem[a.queue[0]] > quantum
    requires forall i :: 0 <= i < |a.rem| ==> a.rem[i] >= 0
    ensures var m := Preempt(a, quantum, v);
      && (forall i :: 0 <= i < |m.rem| ==> m.rem[i] >= 0)
      && Zeros(m.rem) == Zeros(a.rem)
      && Sum(m.rem) == Sum(a.rem) - quantum
      && Arrivals(m.temp) == Arrivals(a.temp)
  {
    var idx := a.queue[0];
    SumUpdate(a.rem, idx, a.rem[idx] - quantum);
  }

  /** A dispatch that preempts the process keeps the loop live and lowers the total
      remaining time by one quantum. */
  lemma PreemptLive(a: State, quantum: int, v: Variant)
    requires Sized(a) && quantum > 0 && a.queue != [] && a.rem[a.queue[0]] > quantum
    requires forall i :: 0 <= i < |a.temp| && a.inQ[i] && a.rem[i] > 0 ==> i in a.queue
    requires forall i :: 0 <= i < |a.rem| ==> a.rem[i] >= 0
    requires CountTrue(Zeros(a.rem)) <= a.completed <= |a.temp|
    ensures var r := Requeue(Admit(Preempt(a, quantum, v)), a.queue[0]);
      && Live(r, quantum) && r.completed == a.completed && Sum(r.rem) == Sum(a.rem) - quantum
      && Arrivals(r.temp) == Arrivals(a.temp)
  {
    var idx := a.queue[0];
    var m := Preempt(a, quantum, v);
    PreemptKeeps(a, quantum, v);
    var b := Admit(m);
    AdmitsMembers(m, |m.temp|);
    forall i | 0 <= i < |b.temp| && i != idx && b.inQ[i] && b.rem[i] > 0
      ensures i in b.queue
    {
      if !m.inQ[i] {
        assert i in Admits(m, |m.temp|);
      }
    }
    var r := Requeue(b, idx);
    assert r.queue[|r.queue| - 1] == idx;
  }

  /** Each iteration from a live state keeps it live and lowers the loop's measure. */
  lemma StepProgress(s: State, quantum: int, v: Variant)
    requires Live(s, quantum) && s.completed != |s.temp|
    ensures Live(Step(s, quantum, v), quantum)
    ensures Arrivals(Step(s, quantum, v).temp) == Arrivals(s.temp)
    ensures Progress(s, Step(s, quantum, v))
  {
    var a := Admit(s);
    if a.queue == [] {
      StepIdle(s, quantum, v);
    } else if a.rem[a.queue[0]] <= quantum {
      StepFinish(s, quantum, v);
    } else {
      StepPreempt(s, quantum, v);
    }
  }

  lemma StepIdle(s: State, quantum: int, v: Variant)
    requires Live(s, quantum) && s.completed != |s.temp| && Admit(s).queue == []
    ensures Live(Step(s, quantum, v), quantum)
    ensures Arrivals(Step(s, quantum, v).temp) == Arrivals(s.temp)
    ensures Progress(s, Step(s, quantum, v))
  {
    AdmitKeeps(s);
    IdleBeforeArrival(s, quantum);
  }

  lemma StepFinish(s: State, quantum: int, v: Variant)
    requires Live(s, quantum) && s.completed != |s.temp|
    requires Admit(s).queue != [] && Admit(s).rem[Admit(s).queue[0]] <= quantum
    ensures Live(Step(s, quantum, v), quantum)
    ensures Arrivals(Step(s, quantum, v).temp) == Arrivals(s.temp)
    ensures Progress(s, Step(s, quantum, v))
  {
    AdmitKeeps(s);
    FinishLive(Admit(s), quantum, v);
  }

  lemma StepPreempt(s: State, quantum: int, v: Variant)
    requires Live(s, quantum) && s.completed != |s.temp|
    requires Admit(s).queue != [] && Admit(s).rem[Admit(s).queue[0]] > quantum
    ensures Live(Step(s, quantum, v), quantum)
    ensures Arrivals(Step(s, quantum, v).temp) == Arrivals(s.temp)
    ensures Progress(s, Step(s, quantum, v))
  {
    AdmitKeeps(s);
    PreemptLive(Admit(s), quantum, v);
  }

  /** The loop run to its end, from a live state. */
  ghost function Run(s: State, quantum: int, v: Variant): (r: State)
    requires Live(s, quantum)
    ensures Live(r, quantum) && r.completed == |r.temp|
    decreases |s.temp| - s.completed, Sum(s.rem), MaxOf(Arrivals(s.temp)) - s.clock
  {
    if s.completed == |s.temp| then s
    else
      StepProgress(s, quantum, v);
      SumNonNegative(Step(s, quantum, v).rem);
      Run(Step(s, quantum, v), quantum, v)
  }

  /** Input the source's caller must supply for the loop to stop: positive bursts
      and a positive quantum. */
  predicate Runnable(ps: seq<Process>, quantum: int)
  {
    quantum > 0 && forall i :: 0 <= i < |ps| ==> ps[i].burst > 0
  }

  lemma InitLive(ps: seq<Process>, quantum: int)
    requires Runnable(ps, quantum)
    ensures Live(Init(ps), quantum)
  {
    var s := Init(ps);
    forall i | 0 <= i < |ps|
      ensures !Zeros(s.rem)[i]
    {
    }
    assert Zeros(s.rem) == seq(|ps|, _ => false);
    CountTrueNone(|ps|);
  }

  /** What the simulator leaves behind. */
  ghost function Outcome(ps: seq<Process>, quantum: int, v: Variant): (r: State)
    requires Runnable(ps, quantum)
    ensures Live(r, quantum) && r.completed == |r.temp|
  {
    InitLive(ps, quantum);
    Run(Init(ps), quantum, v)
  }

  /** The admission scan on the simulator's arrays. */
  method AdmitArrived(temp: array<Process>, rem: array<int>, inQ: array<bool>,
                      queue: seq<int>, clock: int, ghost s: State) returns (queue': seq<int>)
    requires temp.Length == rem.Length == inQ.Length
    requires s == State(s.procs, temp[..], rem[..], inQ[..], queue, clock, s.completed) && Sized(s)
    modifies inQ
    ensures queue' == Admit(s).queue && inQ[..] == Admit(s).inQ
  {
    queue' := queue;
    for i := 0 to temp.Length
      invariant queue' == queue + Admits(s, i)
      invariant forall j :: 0 <= j < inQ.Length ==>
        inQ[j] == if j < i then s.inQ[j] || Admissible(s, j) else s.inQ[j]
    {
      if temp[i].arrival <= clock && !inQ[i] && rem[i] > 0 {
        queue' := queue' + [i];
        inQ[i] := true;
      }
    }
  }

  /** The first-dispatch bookkeeping on `temp[idx]`. */
  method DispatchAt(temp: array<Process>, idx: int, clock: int)
    requires 0 <= idx < temp.Length
    modifies temp
    ensures temp[..] == old(temp[..])[idx := Dispatch(old(temp[idx]), clock)]
  {
    if !temp[idx].started {
      temp[idx] := temp[idx].(response := clock - temp[idx].arrival, started := true);
    }
  }

  /** Completes `temp[idx]` at `clock` and writes it back into the caller's list. */
  method FinishAt(procs: array<Process>, temp: array<Process>, idx: int, clock: int)
    requires 0 <= idx < temp.Length && procs != temp
    modifies procs, temp
    ensures temp[..] == old(temp[..])[idx := Finish(old(temp[idx]), clock)]
    ensures procs[..] == WrittenBack(old(procs[..]), Finish(old(temp[idx]), clock))
  {
    var p := temp[idx];
    p := p.(completion := clock);
    p := p.(turnaround := p.completion - p.arrival);
    p := p.(waiting := p.turnaround - p.burst);
    temp[idx] := p;
    WriteBack(procs, p);
  }

  /** The dequeue on the simulator's queue and flags. */
  method DequeueFront(inQ: array<bool>, queue: seq<int>, v: Variant, ghost a: State)
    returns (idx: int, queue': seq<int>)
    requires Sized(a) && a.queue == queue != [] && a.inQ == inQ[..]
    modifies inQ
    ensures idx == queue[0] && queue' == Dequeued(a, v).queue && inQ[..] == Dequeued(a, v).inQ
  {
    idx := queue[0];
    queue' := queue[1..];
    if v == AsWritten {
      inQ[idx] := false;
    }
  }

  /** The branch of a dispatch that finishes the front process. */
  method RunToCompletion(procs: array<Process>, temp: array<Process>, rem: array<int>,
                         inQ: array<bool>, queue: seq<int>, clock: int, completed: int,
                         v: Variant) returns (queue': seq<int>, clock': int, completed': int)
    requires procs != temp && procs.Length == temp.Length == rem.Length == inQ.Length
    requires Sized(State(procs[..], temp[..], rem[..], inQ[..], queue, clock, completed))
    requires queue != []
    modifies procs, temp, rem, inQ
    ensures State(procs[..], temp[..], rem[..], inQ[..], queue', clock', completed')
         == Complete(State(old(procs[..]), old(temp[..]), old(rem[..]), old(inQ[..]), queue,
                           clock, completed), v)
  {
    ghost var a := State(procs[..], temp[..], rem[..], inQ[..], queue, clock, completed);
    var idx;
    idx, queue' := DequeueFront(inQ, queue, v, a);
    DispatchAt(temp, idx, clock);
    clock' := clock + rem[idx];
    rem[idx] := 0;
    FinishAt(procs, temp, idx, clock');
    completed' := completed + 1;
  }

  /** The branch of a dispatch that preempts the front process after one quantum. */
  method RunQuantum(procs: array<Process>, temp: array<Process>, rem: array<int>,
                    inQ: array<bool>, queue: seq<int>, clock: int, completed: int,
                    quantum: int, v: Variant) returns (queue': seq<int>, clock': int)
    requires procs != temp && procs.Length == temp.Length == rem.Length == inQ.Length
    requires Sized(State(procs[..], temp[..], rem[..], inQ[..], queue, clock, completed))
    requires queue != []
    modifies temp, rem, inQ
    ensures
      var a := State(old(procs[..]), old(temp[..]), old(rem[..]), old(inQ[..]), queue, clock, completed);
      State(procs[..], temp[..], rem[..], inQ[..], queue', clock', completed)
        == Requeue(Admit(Preempt(a, quantum, v)), queue[0])
  {
    ghost var a := State(procs[..], temp[..], rem[..], inQ[..], queue, clock, completed);
    var idx;
    idx, queue' := DequeueFront(inQ, queue, v, a);
    DispatchAt(temp, idx, clock);
    clock' := clock + quantum;
    rem[idx] := rem[idx] - quantum;
    ghost var m := State(procs[..], temp[..], rem[..], inQ[..], queue', clock', completed);
    assert m == Preempt(a, quantum, v);
    queue' := AdmitArrived(temp, rem, inQ, queue', clock', m);
    queue' := queue' + [idx];
    inQ[idx] := true;
  }

  /** One iteration of the loop on the simulator's arrays. */
  method Tick(procs: array<Process>, temp: array<Process>, rem: array<int>,
              inQ: array<bool>, queue: seq<int>, clock: int, completed: int,
              quantum: int, v: Variant) returns (queue': seq<int>, clock': int, completed': int)
    requires procs != temp && procs.Length == temp.Length == rem.Length == inQ.Length
    requires Sized(State(procs[..], temp[..], rem[..], inQ[..], queue, clock, completed))
    modifies procs, temp, rem, inQ
    ensures State(procs[..], temp[..], rem[..], inQ[..], queue', clock', completed')
         == Step(State(old(procs[..]), old(temp[..]), old(rem[..]), old(inQ[..]), queue,
                       clock, completed), quantum, v)
  {
    ghost var s := State(procs[..], temp[..], rem[..], inQ[..], queue, clock, completed);
    queue' := AdmitArrived(temp, rem, inQ, queue, clock, s);
    ghost var a := Admit(s);
    assert State(procs[..], temp[..], rem[..], inQ[..], queue', clock, completed) == a;
    if queue' == [] {
      clock', completed' := clock + 1, completed;
    } else if rem[queue'[0]] <= quantum {
      queue', clock', completed' := RunToCompletion(procs, temp, rem, inQ, queue', clock, completed, v);
    } else {
      queue', clock' := RunQuantum(procs, temp, rem, inQ, queue', clock, completed, quantum, v);
      completed' := completed;
    }
  }

  /** Round Robin on the caller's list, with the dequeue behaviour `v`; the result
      and the returned clock are those of the reference loop `Run`. */
  method RR(procs: array<Process>, quantum: int, v: Variant) returns (makespan: int)
    requires Runnable(procs[..], quantum)
    modifies procs
    ensures procs[..] == Outcome(old(procs[..]), quantum, v).procs
    ensures makespan == Outcome(old(procs[..]), quantum, v).clock
  {
    var n := procs.Length;
    var temp := new Process[n](i requires 0 <= i < n reads procs => procs[i]);
    var rem := new int[n];
    for i := 0 to n
      invariant procs[..] == old(procs[..]) && temp[..] == procs[..]
      invariant forall j :: 0 <= j < i ==> rem[j] == temp[j].burst
    {
      rem[i] := temp[i].burst;
    }
    var completed := 0;
    var inQ := new bool[n](_ => false);
    var queue: seq<int> := [];
    var clock := 0;
    ghost var s0 := Init(procs[..]);
    InitLive(procs[..], quantum);
    assert State(procs[..], temp[..], rem[..], inQ[..], queue, clock, completed) == s0;
    while completed != n
      invariant temp.Length == rem.Length == inQ.Length == n
      invariant fresh(temp) && fresh(rem) && fresh(inQ)
      invariant Live(State(procs[..], temp[..], rem[..], inQ[..], queue, clock, completed), quantum)
      invariant Run(State(procs[..], temp[..], rem[..], inQ[..], queue, clock, completed), quantum, v)
             == Run(s0, quantum, v)
      decreases n - completed, Sum(rem[..]), MaxOf(Arrivals(temp[..])) - clock
    {
      ghost var s := State(procs[..], temp[..], rem[..], inQ[..], queue, clock, completed);
      StepProgress(s, quantum, v);
      SumNonNegative(Step(s, quantum, v).rem);
      queue, clock, completed := Tick(procs, temp, rem, inQ, queue, clock, completed, quantum, v);
    }
    makespan := clock;
  }

  /** What Round Robin keeps true of one process: `p` is its input record, `t` its
      working copy, `r` its remaining time and `q` its record in the caller's list.
      Since its first dispatch at `arrival + response` it has run `burst - r` time
      units, all before `clock`; a process with no time left has been written back
      with its timing settled, and any other is still its input record. */
  ghost predicate Tracked(p: Process, t: Process, r: int, q: Process, clock: int)
  {
    && SameIdentity(t, p) && t.remaining == p.remaining && 0 <= r <= p.burst
    && (if t.started then 0 <= t.response && p.arrival + t.response + (p.burst - r) <= clock
        else t == p && r == p.burst)
    && (if r == 0
        then q == t && t.started && Settled(t) && t.response <= t.waiting && t.completion <= clock
        else q == p)
  }

  ghost predicate Inv(orig: seq<Process>, s: State, quantum: int)
  {
    && Live(s, quantum)
    && |orig| == |s.temp|
    && UniqueIds(orig)
    && (forall i :: 0 <= i < |orig| ==> orig[i].burst > 0)
    && (forall k :: 0 <= k < |s.queue| ==> s.temp[s.queue[k]].arrival <= s.clock)
    && forall i :: 0 <= i < |orig| ==> Tracked(orig[i], s.temp[i], s.rem[i], s.procs[i], s.clock)
  }

  /** Input the source's caller supplies: records that have not run, unique ids,
      positive bursts and a positive quantum. */
  predicate ValidInput(orig: seq<Process>, quantum: int)
  {
    && Runnable(orig, quantum)
    && UniqueIds(orig)
    && forall i :: 0 <= i < |orig| ==> !orig[i].started
  }

  lemma InitInv(orig: seq<Process>, quantum: int)
    requires ValidInput(orig, quantum)
    ensures Inv(orig, Init(orig), quantum)
  {
    InitLive(orig, quantum);
  }

  /** Admission only queues processes that have arrived. */
  lemma AdmitInv(orig: seq<Process>, s: State, quantum: int)
    requires Inv(orig, s, quantum)
    ensures Inv(orig, Admit(s), quantum)
  {
    AdmitKeeps(s);
    var a := Admit(s);
    AdmitQueuedArrived(s);
    assert Live(a, quantum);
    assert forall i :: 0 <= i < |orig| ==> Tracked(orig[i], a.temp[i], a.rem[i], a.procs[i], a.clock);
  }

  /** Every index in the queue after admission has arrived. */
  lemma AdmitQueuedArrived(s: State)
    requires Sized(s)
    requires forall k :: 0 <= k < |s.queue| ==> s.temp[s.queue[k]].arrival <= s.clock
    ensures var a := Admit(s);
      forall k :: 0 <= k < |a.queue| ==> a.temp[a.queue[k]].arrival <= a.clock
  {
    AdmitsMembers(s, |s.temp|);
    var a := Admit(s);
    forall k | 0 <= k < |a.queue|
      ensures s.temp[a.queue[k]].arrival <= s.clock
    {
      if k >= |s.queue| {
        assert a.queue[k] in Admits(s, |s.temp|);
      }
    }
  }

  /** The dispatched process after running to its end is tracked, and written back at
      its own position. */
  lemma CompleteTracksRunner(orig: seq<Process>, a: State, quantum: int, v: Variant)
    requires Inv(orig, a, quantum) && a.queue != [] && a.rem[a.queue[0]] <= quantum
    ensures var r := Complete(a, v); var idx := a.queue[0];
      && r.procs == a.procs[idx := r.temp[idx]]
      && Tracked(orig[idx], r.temp[idx], r.rem[idx], r.procs[idx], r.clock)
  {
    var idx := a.queue[0];
    var r := Complete(a, v);
    UniqueIdsTransfer(orig, a.procs);
    WrittenBackAt(a.procs, idx, r.temp[idx]);
  }

  lemma CompleteInv(orig: seq<Process>, a: State, quantum: int, v: Variant)
    requires Inv(orig, a, quantum) && a.queue != [] && a.rem[a.queue[0]] <= quantum
    requires Live(Complete(a, v), quantum)
    ensures Inv(orig, Complete(a, v), quantum)
  {
    var idx := a.queue[0];
    var r := Complete(a, v);
    CompleteTracksRunner(orig, a, quantum, v);
    forall i | 0 <= i < |orig| && i != idx
      ensures Tracked(orig[i], r.temp[i], r.rem[i], r.procs[i], r.clock)
    {
      assert r.temp[i] == a.temp[i] && r.rem[i] == a.rem[i] && r.procs[i] == a.procs[i];
    }
    forall k | 0 <= k < |r.queue|
      ensures r.temp[r.queue[k]].arrival <= r.clock
    {
      assert r.queue[k] == a.queue[k + 1];
    }
  }

  /** One quantum of the dispatched process keeps every process tracked. */
  lemma PreemptInv(orig: seq<Process>, a: State, quantum: int, v: Variant)
    requires Inv(orig, a, quantum) && a.queue != [] && a.rem[a.queue[0]] > quantum
    ensures var m := Preempt(a, quantum, v);
      && (forall k :: 0 <= k < |m.queue| ==> m.temp[m.queue[k]].arrival <= m.clock)
      && m.temp[a.queue[0]].arrival <= m.clock
      && forall i :: 0 <= i < |orig| ==> Tracked(orig[i], m.temp[i], m.rem[i], m.procs[i], m.clock)
  {
    var idx := a.queue[0];
    var m := Preempt(a, quantum, v);
    forall k | 0 <= k < |m.queue|
      ensures m.temp[m.queue[k]].arrival <= m.clock
    {
      assert m.queue[k] == a.queue[k + 1];
    }
    forall i | 0 <= i < |orig|
      ensures Tracked(orig[i], m.temp[i], m.rem[i], m.procs[i], m.clock)
    {
      if i != idx {
        assert m.temp[i] == a.temp[i] && m.rem[i] == a.rem[i];
      }
    }
  }

  lemma RequeueInv(orig: seq<Process>, a: State, quantum: int, v: Variant)
    requires Inv(orig, a, quantum) && a.queue != [] && a.rem[a.queue[0]] > quantum
    requires Live(Requeue(Admit(Preempt(a, quantum, v)), a.queue[0]), quantum)
    ensures Inv(orig, Requeue(Admit(Preempt(a, quantum, v)), a.queue[0]), quantum)
  {
    var idx := a.queue[0];
    var m := Preempt(a, quantum, v);
    PreemptInv(orig, a, quantum, v);
    AdmitsMembers(m, |m.temp|);
    var b := Admit(m);
    var r := Requeue(b, idx);
    assert r.temp == m.temp && r.rem == m.rem && r.procs == m.procs && r.clock == m.clock;
    assert r.queue == m.queue + Admits(m, |m.temp|) + [idx];
    forall k | 0 <= k < |r.queue|
      ensures r.temp[r.queue[k]].arrival <= r.clock
    {
      if |m.queue| <= k < |r.queue| - 1 {
        assert r.queue[k] in Admits(m, |m.temp|);
      }
    }
  }

  lemma StepInv(orig: seq<Process>, s: State, quantum: int, v: Variant)
    requires Inv(orig, s, quantum) && s.completed != |s.temp|
    ensures Inv(orig, Step(s, quantum, v), quantum)
  {
    StepProgress(s, quantum, v);
    AdmitInv(orig, s, quantum);
    var a := Admit(s);
    if a.queue == [] {
      StepInvIdle(orig, s, quantum, v);
    } else if a.rem[a.queue[0]] <= quantum {
      StepInvFinish(orig, s, quantum, v);
    } else {
      StepInvPreempt(orig, s, quantum, v);
    }
  }

  lemma StepInvIdle(orig: seq<Process>, s: State, quantum: int, v: Variant)
    requires Inv(orig, s, quantum) && Admit(s).queue == []
    requires Live(Step(s, quantum, v), quantum)
    ensures Inv(orig, Step(s, quantum, v), quantum)
  {
  }

  lemma StepInvFinish(orig: seq<Process>, s: State, quantum: int, v: Variant)
    requires Inv(orig, s, quantum) && Admit(s).queue != [] && Admit(s).rem[Admit(s).queue[0]] <= quantum
    requires Inv(orig, Admit(s), quantum)
    requires Live(Step(s, quantum, v), quantum)
    ensures Inv(orig, Step(s, quantum, v), quantum)
  {
    CompleteInv(orig, Admit(s), quantum, v);
  }

  lemma StepInvPreempt(orig: seq<Process>, s: State, quantum: int, v: Variant)
    requires Inv(orig, s, quantum) && Admit(s).queue != [] && Admit(s).rem[Admit(s).queue[0]] > quantum
    requires Inv(orig, Admit(s), quantum)
    requires Live(Step(s, quantum, v), quantum)
    ensures Inv(orig, Step(s, quantum, v), quantum)
  {
    RequeueInv(orig, Admit(s), quantum, v);
  }

  lemma {:induction false} RunInv(orig: seq<Process>, s: State, quantum: int, v: Variant)
    requires Inv(orig, s, quantum)
    ensures Inv(orig, Run(s, quantum, v), quantum)
    decreases |s.temp| - s.completed, Sum(s.rem), MaxOf(Arrivals(s.temp)) - s.clock
  {
    if s.completed != |s.temp| {
      StepProgress(s, quantum, v);
      SumNonNegative(Step(s, quantum, v).rem);
      StepInv(orig, s, quantum, v);
      RunInv(orig, Step(s, quantum, v), quantum, v);
    }
  }

  /** What Round Robin as written delivers: each record of the caller's list is
      either still its input record (never written back) or the record of that
      process written back with its identity kept, its timing settled, a response
      time no larger than its waiting time, and a completion no later than the
      returned clock. It does not deliver that every process is written back. */
  lemma Outcomes(orig: seq<Process>, quantum: int, v: Variant)
    requires ValidInput(orig, quantum)
    ensures |Outcome(orig, quantum, v).procs| == |orig|
    ensures forall i :: 0 <= i < |orig| ==>
      var q := Outcome(orig, quantum, v).procs[i];
      || q == orig[i]
      || (&& SameIdentity(q, orig[i]) && q.remaining == orig[i].remaining && q.started
          && Settled(q) && 0 <= q.response <= q.waiting
          && q.completion <= Outcome(orig, quantum, v).clock)
  {
    InitInv(orig, quantum);
    RunInv(orig, Init(orig), quantum, v);
  }

  /** What the corrected dequeue keeps true besides `Live`: the queue holds each index
      at most once, only flagged processes with time left are queued, and the counter
      is exactly the number of processes with no time left. */
  ghost predicate Exact(s: State)
  {
    && Sized(s)
    && (forall a, b :: 0 <= a < b < |s.queue| ==> s.queue[a] != s.queue[b])
    && (forall k :: 0 <= k < |s.queue| ==> s.inQ[s.queue[k]] && s.rem[s.queue[k]] > 0)
    && s.completed == CountTrue(Zeros(s.rem))
  }

  lemma {:induction false} AdmitsAscending(s: State, i: nat)
    requires Sized(s) && i <= |s.temp|
    ensures forall a, b :: 0 <= a < b < |Admits(s, i)| ==> Admits(s, i)[a] < Admits(s, i)[b]
  {
    if i > 0 {
      AdmitsAscending(s, i - 1);
    }
  }

  /** Admission queues only unflagged indices, each once. */
  lemma AdmitExact(s: State)
    requires Exact(s)
    ensures Exact(Admit(s))
  {
    AdmitsMembers(s, |s.temp|);
    AdmitsAscending(s, |s.temp|);
    var ad := Admits(s, |s.temp|);
    var a := Admit(s);
    forall x, y | 0 <= x < y < |a.queue|
      ensures a.queue[x] != a.queue[y]
    {
      if x < |s.queue| <= y {
        assert ad[y - |s.queue|] in ad;
      }
    }
    forall k | 0 <= k < |a.queue|
      ensures a.inQ[a.queue[k]] && a.rem[a.queue[k]] > 0
    {
      if k >= |s.queue| {
        assert a.queue[k] in ad;
      }
    }
  }

  /** Under the corrected dequeue a dispatch that finishes its process counts a
      process that had time left. */
  lemma CompleteExact(a: State, quantum: int)
    requires Exact(a) && a.queue != []
    ensures Exact(Complete(a, Corrected))
  {
    var idx := a.queue[0];
    var r := Complete(a, Corrected);
    CountTrueUpdate(Zeros(a.rem), idx, true);
    assert Zeros(r.rem) == Zeros(a.rem)[idx := true];
    forall k | 0 <= k < |r.queue|
      ensures r.inQ[r.queue[k]] && r.rem[r.queue[k]] > 0
    {
      assert r.queue[k] == a.queue[k + 1] != idx;
    }
  }

  /** Under the corrected dequeue the preempted process leaves the queue but keeps
      its flag and some time, and the rest of the queue stays exact. */
  lemma PreemptExact(a: State, quantum: int)
    requires Exact(a) && a.queue != [] && quantum > 0 && a.rem[a.queue[0]] > quantum
    ensures var m := Preempt(a, quantum, Corrected); var idx := a.queue[0];
      Exact(m) && idx !in m.queue && m.inQ[idx] && m.rem[idx] > 0
  {
    var idx := a.queue[0];
    var m := Preempt(a, quantum, Corrected);
    assert Zeros(m.rem) == Zeros(a.rem);
    forall k | 0 <= k < |m.queue|
      ensures m.queue[k] != idx && m.inQ[m.queue[k]] && m.rem[m.queue[k]] > 0
    {
      assert m.queue[k] == a.queue[k + 1];
    }
  }

  /** The admission scan never queues a flagged index. */
  lemma AdmitSkipsFlagged(m: State, idx: int)
    requires Sized(m) && 0 <= idx < |m.temp| && m.inQ[idx] && idx !in m.queue
    ensures idx !in Admit(m).queue
  {
    AdmitsMembers(m, |m.temp|);
    assert idx !in Admits(m, |m.temp|);
  }

  /** Under the corrected dequeue the preempted index is not queued again by the
      admission scan, so pushing it back keeps every index queued at most once. */
  lemma RequeueExact(a: State, quantum: int)
    requires Exact(a) && a.queue != [] && quantum > 0 && a.rem[a.queue[0]] > quantum
    ensures Exact(Requeue(Admit(Preempt(a, quantum, Corrected)), a.queue[0]))
  {
    var idx := a.queue[0];
    var m := Preempt(a, quantum, Corrected);
    PreemptExact(a, quantum);
    AdmitExact(m);
    AdmitSkipsFlagged(m, idx);
    var b := Admit(m);
    var r := Requeue(b, idx);
    forall k | 0 <= k < |r.queue|
      ensures r.inQ[r.queue[k]] && r.rem[r.queue[k]] > 0
    {
      if k < |b.queue| {
        assert r.queue[k] == b.queue[k];
      }
    }
  }

  lemma StepExact(s: State, quantum: int)
    requires Exact(s) && quantum > 0
    ensures Exact(Step(s, quantum, Corrected))
  {
    AdmitExact(s);
    var a := Admit(s);
    if a.queue == [] {
      StepExactIdle(s, quantum);
    } else if a.rem[a.queue[0]] <= quantum {
      StepExactFinish(s, quantum);
    } else {
      StepExactPreempt(s, quantum);
    }
  }

  lemma StepExactIdle(s: State, quantum: int)
    requires Sized(s) && Exact(Admit(s)) && Admit(s).queue == []
    ensures Exact(Step(s, quantum, Corrected))
  {
  }

  lemma StepExactFinish(s: State, quantum: int)
    requires Sized(s) && Exact(Admit(s)) && Admit(s).queue != [] && Admit(s).rem[Admit(s).queue[0]] <= quantum
    ensures Exact(Step(s, quantum, Corrected))
  {
    CompleteExact(Admit(s), quantum);
  }

  lemma StepExactPreempt(s: State, quantum: int)
    requires Sized(s) && Exact(Admit(s)) && Admit(s).queue != [] && quantum > 0
    requires Admit(s).rem[Admit(s).queue[0]] > quantum
    ensures Exact(Step(s, quantum, Corrected))
  {
    RequeueExact(Admit(s), quantum);
  }

  lemma {:induction false} RunExact(s: State, quantum: int)
    requires Live(s, quantum) && Exact(s)
    ensures Exact(Run(s, quantum, Corrected))
    decreases |s.temp| - s.completed, Sum(s.rem), MaxOf(Arrivals(s.temp)) - s.clock
  {
    if s.completed != |s.temp| {
      StepProgress(s, quantum, Corrected);
      SumNonNegative(Step(s, quantum, Corrected).rem);
      StepExact(s, quantum);
      RunExact(Step(s, quantum, Corrected), quantum);
    }
  }

  /** What Round Robin with the corrected dequeue delivers: every process is written
      back, in its input position, with its identity kept, its timing settled, a
      response time no larger than its waiting time, and a completion no later than
      the returned clock; the loop stops only once every process has used its whole
      burst. */
  /** With positive bursts nothing starts out with no time left, so the initial state
      meets the corrected dequeue's invariant. */
  lemma InitExact(orig: seq<Process>, quantum: int)
    requires Runnable(orig, quantum)
    ensures Exact(Init(orig))
  {
    var s := Init(orig);
    assert Zeros(s.rem) == seq(|orig|, _ => false);
    CountTrueNone(|orig|);
  }

  lemma CorrectedOutcomes(orig: seq<Process>, quantum: int)
    requires ValidInput(orig, quantum)
    ensures |Outcome(orig, quantum, Corrected).procs| == |orig|
    ensures forall i :: 0 <= i < |orig| ==> Outcome(orig, quantum, Corrected).rem[i] == 0
    ensures forall i :: 0 <= i < |orig| ==>
      var q := Outcome(orig, quantum, Corrected).procs[i];
      && SameIdentity(q, orig[i]) && q.remaining == orig[i].remaining && q.started
      && Settled(q) && 0 <= q.response <= q.waiting
      && q.completion <= Outcome(orig, quantum, Corrected).clock
  {
    InitInv(orig, quantum);
    var s := Init(orig);
    InitExact(orig, quantum);
    RunInv(orig, s, quantum, Corrected);
    RunExact(s, quantum);
    var r := Outcome(orig, quantum, Corrected);
    forall i | 0 <= i < |orig|
      ensures r.rem[i] == 0
    {
      CountTrueFull(Zeros(r.rem), i);
    }
  }
}
