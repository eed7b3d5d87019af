/** A two-process input on which the Round Robin loop, as written, stops before one
    of the processes has run to the end. */
module Samples {

  import opened Records
  import RoundRobin

  /** Two processes that both arrive at time 0 with a burst of 3. */
  function Pair(): seq<Process>
  {
    [NewProcess(1, 0, 3, 0), NewProcess(2, 0, 3, 0)]
  }

  /** Two processes with distinct ids, both arriving at time 0 with a burst of 3 and
      not yet started: with a quantum of 2 each needs two turns. */
  predicate TwoLongAtZero(ps: seq<Process>)
  {
    && |ps| == 2 && ps[0].id != ps[1].id
    && ps[0].arrival == ps[1].arrival == 0
    && ps[0].burst == ps[1].burst == 3
    && !ps[0].started && !ps[1].started
  }

  /** The loop state after each iteration of the loop as written. */
  function Trace1(ps: seq<Process>): RoundRobin.State
    requires TwoLongAtZero(ps)
  {
    RoundRobin.State(ps, ps[0 := Dispatch(ps[0], 0)], [1, 3], [true, true], [1, 0, 0], 2, 0)
  }

  function Trace2(ps: seq<Process>): RoundRobin.State
    requires TwoLongAtZero(ps)
  {
    RoundRobin.State(ps, Trace1(ps).temp[1 := Dispatch(ps[1], 2)], [1, 1], [true, true], [0, 0, 1, 1], 4, 0)
  }

  function Trace3(ps: seq<Process>): RoundRobin.State
    requires TwoLongAtZero(ps)
  {
    var f := Finish(Dispatch(ps[0], 0), 5);
    RoundRobin.State(ps[0 := f], Trace2(ps).temp[0 := f], [0, 1], [false, true], [0, 1, 1], 5, 1)
  }

  function Trace4(ps: seq<Process>): RoundRobin.State
    requires TwoLongAtZero(ps)
  {
    Trace3(ps).(queue := [1, 1], completed := 2)
  }

  /** The admission scan over two processes, unfolded. */
  lemma AdmitTwo(s: RoundRobin.State)
    requires RoundRobin.Sized(s) && |s.temp| == 2
    ensures var a := RoundRobin.Admit(s);
      && a == s.(queue := a.queue, inQ := a.inQ)
      && a.queue == s.queue + (if RoundRobin.Admissible(s, 0) then [0] else [])
                            + (if RoundRobin.Admissible(s, 1) then [1] else [])
      && a.inQ == [s.inQ[0] || RoundRobin.Admissible(s, 0), s.inQ[1] || RoundRobin.Admissible(s, 1)]
  {
    var a := RoundRobin.Admit(s);
    assert RoundRobin.Admits(s, 1) == (if RoundRobin.Admissible(s, 0) then [0] else []);
    assert a.inQ == [a.inQ[0], a.inQ[1]];
  }

  lemma AdmitAll(ps: seq<Process>)
    requires TwoLongAtZero(ps)
    ensures RoundRobin.Admit(RoundRobin.Init(ps))
         == RoundRobin.State(ps, ps, [3, 3], [true, true], [0, 1], 0, 0)
  {
    var s := RoundRobin.Init(ps);
    assert s == RoundRobin.State(ps, ps, [3, 3], [false, false], [], 0, 0);
    AdmitTwo(s);
  }

  lemma PreemptFirst(ps: seq<Process>)
    requires TwoLongAtZero(ps)
    ensures RoundRobin.Preempt(RoundRobin.State(ps, ps, [3, 3], [true, true], [0, 1], 0, 0),
                               2, RoundRobin.AsWritten)
         == Trace1(ps).(inQ := [false, true], queue := [1])
  {
  }

  lemma ReadmitFirst(ps: seq<Process>)
    requires TwoLongAtZero(ps)
    ensures RoundRobin.Admit(Trace1(ps).(inQ := [false, true], queue := [1]))
         == Trace1(ps).(queue := [1, 0])
  {
    AdmitTwo(Trace1(ps).(inQ := [false, true], queue := [1]));
  }

  lemma TraceStep0(ps: seq<Process>)
    requires TwoLongAtZero(ps)
    ensures RoundRobin.Step(RoundRobin.Init(ps), 2, RoundRobin.AsWritten) == Trace1(ps)
  {
    AdmitAll(ps);
    PreemptFirst(ps);
    ReadmitFirst(ps);
  }

  lemma PreemptSecond(ps: seq<Process>)
    requires TwoLongAtZero(ps)
    ensures RoundRobin.Preempt(Trace1(ps), 2, RoundRobin.AsWritten)
         == Trace2(ps).(inQ := [true, false], queue := [0, 0])
  {
  }

  lemma ReadmitSecond(ps: seq<Process>)
    requires TwoLongAtZero(ps)
    ensures RoundRobin.Admit(Trace2(ps).(inQ := [true, false], queue := [0, 0]))
         == Trace2(ps).(queue := [0, 0, 1])
  {
    AdmitTwo(Trace2(ps).(inQ := [true, false], queue := [0, 0]));
  }

  lemma TraceStep1(ps: seq<Process>)
    requires TwoLongAtZero(ps)
    ensures RoundRobin.Step(Trace1(ps), 2, RoundRobin.AsWritten) == Trace2(ps)
  {
    AdmitTwo(Trace1(ps));
    assert RoundRobin.Admit(Trace1(ps)) == Trace1(ps);
    PreemptSecond(ps);
    ReadmitSecond(ps);
  }

  lemma CompleteFirst(ps: seq<Process>)
    requires TwoLongAtZero(ps)
    ensures RoundRobin.Complete(Trace2(ps), RoundRobin.AsWritten) == Trace3(ps)
  {
    WrittenBackAt(ps, 0, Finish(Dispatch(ps[0], 0), 5));
  }

  lemma TraceStep2(ps: seq<Process>)
    requires TwoLongAtZero(ps)
    ensures RoundRobin.Step(Trace2(ps), 2, RoundRobin.AsWritten) == Trace3(ps)
  {
    AdmitTwo(Trace2(ps));
    assert RoundRobin.Admit(Trace2(ps)) == Trace2(ps);
    CompleteFirst(ps);
  }

  /** The stale entry of the first process is dequeued with no time left, and the
      completion branch runs for it a second time. */
  lemma CompleteFirstAgain(ps: seq<Process>)
    requires TwoLongAtZero(ps)
    ensures RoundRobin.Complete(Trace3(ps), RoundRobin.AsWritten) == Trace4(ps)
  {
    var f := Finish(Dispatch(ps[0], 0), 5);
    WrittenBackAt(ps[0 := f], 0, f);
  }

  lemma TraceStep3(ps: seq<Process>)
    requires TwoLongAtZero(ps)
    ensures RoundRobin.Step(Trace3(ps), 2, RoundRobin.AsWritten) == Trace4(ps)
  {
    AdmitTwo(Trace3(ps));
    assert RoundRobin.Admit(Trace3(ps)) == Trace3(ps);
    CompleteFirstAgain(ps);
  }

  /** Under the dequeue as written (line 248 of the source clears the flag of the
      running process), a preempted process is queued twice, its stale entry is later
      counted as a second completion, and the loop ends with the second process still
      owing one time unit and never written back. */
  lemma AsWrittenLosesSecond(ps: seq<Process>)
    requires TwoLongAtZero(ps)
    ensures var r := RoundRobin.Outcome(ps, 2, RoundRobin.AsWritten);
      && r.clock == 5 && r.completed == 2 && r.rem == [0, 1]
      && r.procs[0].completion == 5
      && r.procs[1] == ps[1]
  {
    RoundRobin.InitLive(ps, 2);
    var s := RoundRobin.Init(ps);
    RoundRobin.StepProgress(s, 2, RoundRobin.AsWritten);
    TraceStep0(ps);
    RoundRobin.StepProgress(Trace1(ps), 2, RoundRobin.AsWritten);
    TraceStep1(ps);
    RoundRobin.StepProgress(Trace2(ps), 2, RoundRobin.AsWritten);
    TraceStep2(ps);
    RoundRobin.StepProgress(Trace3(ps), 2, RoundRobin.AsWritten);
    TraceStep3(ps);
    assert RoundRobin.Run(Trace3(ps), 2, RoundRobin.AsWritten) == Trace4(ps);
    assert RoundRobin.Run(Trace2(ps), 2, RoundRobin.AsWritten) == Trace4(ps);
    assert RoundRobin.Run(Trace1(ps), 2, RoundRobin.AsWritten) == Trace4(ps);
  }

  /** The same run on two concrete processes: the second one keeps completion time 0
      and response time -1, the values the constructor gave it. */
  lemma RoundRobinAsWrittenSample()
    ensures var r := RoundRobin.Outcome(Pair(), 2, RoundRobin.AsWritten);
      && r.clock == 5 && r.completed == 2 && r.rem == [0, 1]
      && r.procs[0].completion == 5
      && r.procs[1] == Pair()[1] && r.procs[1].completion == 0 && r.procs[1].response == -1
  {
    AsWrittenLosesSecond(Pair());
  }

  /** With the flag left set while the process runs, the same input runs both
      processes to the end and writes both back. */
  lemma CorrectedFinishesSecond(ps: seq<Process>)
    requires TwoLongAtZero(ps)
    ensures var r := RoundRobin.Outcome(ps, 2, RoundRobin.Corrected);
      && r.rem == [0, 0]
      && r.procs[1].started && Settled(r.procs[1]) && r.procs[1].id == ps[1].id
  {
    RoundRobin.CorrectedOutcomes(ps, 2);
    var r := RoundRobin.Outcome(ps, 2, RoundRobin.Corrected);
    assert r.rem == [r.rem[0], r.rem[1]];
  }
}
