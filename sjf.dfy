/** Non-preemptive Shortest-Job-First: at each iteration the processes that have
    arrived move, in list order, from the pending list to the ready list; the first
    ready process with the smallest burst runs to completion, is written back and
    leaves the ready list. With nothing ready the CPU idles for one tick. */
module Sjf {

  import opened Records
  import opened Counting

  /** The simulator's loop state: the caller's list, the pending list `temp`, the
      `ready_queue`, the clock and the number of completed processes. */
  datatype State = State(
    procs: seq<Process>,
    temp: seq<Process>,
    ready: seq<Process>,
    clock: int,
    completed: int)

  /** Before the first iteration every process is pending: none is ready and none
      has completed. */
  function Init(ps: seq<Process>): (r: State)
    ensures Live(r) && r.completed == 0 && r.clock == 0
    ensures |r.temp| == |r.procs| == |ps| && r.ready == []
  {
    State(ps, ps, [], 0, 0)
  }

  /** The records of `s` that have arrived by `clock`, in list order. */
  function Arrived(s: seq<Process>, clock: int): (r: seq<Process>)
    ensures |r| <= |s|
    ensures forall i :: 0 <= i < |r| ==> r[i].arrival <= clock
  {
    if s == [] then []
    else
      var last := s[|s| - 1];
      Arrived(s[..|s| - 1], clock) + (if last.arrival <= clock then [last] else [])
  }

  /** The records of `s` that have not arrived by `clock`, in list order. */
  function NotArrived(s: seq<Process>, clock: int): (r: seq<Process>)
    ensures |r| <= |s|
    ensures forall i :: 0 <= i < |r| ==> r[i].arrival > clock
  {
    if s == [] then []
    else
      var last := s[|s| - 1];
      NotArrived(s[..|s| - 1], clock) + (if last.arrival <= clock then [] else [last])
  }

  /** Admission moves exactly the arrived records, and keeps exactly the others. */
  lemma {:induction false} AdmissionMembers(s: seq<Process>, clock: int)
    ensures forall x :: x in Arrived(s, clock) <==> x in s && x.arrival <= clock
    ensures forall x :: x in NotArrived(s, clock) <==> x in s && x.arrival > clock
  {
    if s != [] {
      AdmissionMembers(s[..|s| - 1], clock);
      assert s == s[..|s| - 1] + [s[|s| - 1]];
    }
  }

  /** Admission splits the pending list: every record goes to exactly one side, and
      nothing moves when nothing has arrived. */
  lemma {:induction false} AdmissionSplits(s: seq<Process>, clock: int)
    ensures |Arrived(s, clock)| + |NotArrived(s, clock)| == |s|
    ensures Arrived(s, clock) == [] ==> NotArrived(s, clock) == s
  {
    if s != [] {
      AdmissionSplits(s[..|s| - 1], clock);
      assert s[..|s| - 1] + [s[|s| - 1]] == s;
    }
  }

  /** Admission neither loses nor duplicates a record: the two sides together hold
      exactly the pending list's records. */
  lemma {:induction false} AdmissionPartition(s: seq<Process>, clock: int)
    ensures multiset(Arrived(s, clock)) + multiset(NotArrived(s, clock)) == multiset(s)
  {
    if s != [] {
      var init, last := s[..|s| - 1], s[|s| - 1];
      AdmissionPartition(init, clock);
      assert s == init + [last];
    }
  }

  /** The admission loop: arrived records are appended to `ready` in list order and
      erased from `temp`. */
  method AdmitArrived(temp: seq<Process>, ready: seq<Process>, clock: int)
    returns (temp': seq<Process>, ready': seq<Process>)
    ensures temp' == NotArrived(temp, clock)
    ensures ready' == ready + Arrived(temp, clock)
  {
    temp', ready' := temp, ready;
    var i := 0;
    ghost var m := 0;
    while i < |temp'|
      invariant Admitting(temp, ready, clock, m, temp', i, ready')
      decreases |temp'| - i
    {
      AdmitNext(temp, ready, clock, m, temp', i, ready');
      if temp'[i].arrival <= clock {
        ready' := ready' + [temp'[i]];
        temp' := temp'[..i] + temp'[i + 1..];
      } else {
        i := i + 1;
      }
      m := m + 1;
    }
    assert temp[..m] == temp;
  }

  /** The admission loop after it has looked at `temp[..m]`: the records kept so far
      precede the unvisited ones, and the admitted ones follow the old ready list. */
  ghost predicate Admitting(temp: seq<Process>, ready: seq<Process>, clock: int, m: int,
                            temp': seq<Process>, i: int, ready': seq<Process>)
  {
    && 0 <= m <= |temp|
    && temp' == NotArrived(temp[..m], clock) + temp[m..]
    && i == |NotArrived(temp[..m], clock)|
    && ready' == ready + Arrived(temp[..m], clock)
  }

  /** One turn of the admission loop keeps `Admitting`. */
  lemma AdmitNext(temp: seq<Process>, ready: seq<Process>, clock: int, m: int,
                  temp': seq<Process>, i: int, ready': seq<Process>)
    requires Admitting(temp, ready, clock, m, temp', i, ready') && i < |temp'|
    ensures 0 <= i < |temp'| && temp'[i] == temp[m]
    ensures temp'[i].arrival <= clock ==>
      Admitting(temp, ready, clock, m + 1, temp'[..i] + temp'[i + 1..], i, ready' + [temp'[i]])
    ensures temp'[i].arrival > clock ==>
      Admitting(temp, ready, clock, m + 1, temp', i + 1, ready')
  {
    AdmitOne(temp, m, clock);
    EraseHead(NotArrived(temp[..m], clock), temp[m..]);
  }

  /** Erasing, or stepping past, the first record after a prefix. */
  lemma EraseHead(a: seq<Process>, b: seq<Process>)
    requires b != []
    ensures (a + b)[|a|] == b[0]
    ensures (a + b)[..|a|] + (a + b)[|a| + 1..] == a + b[1..]
    ensures a + b == (a + [b[0]]) + b[1..]
  {
    assert (a + b)[..|a|] == a;
    assert (a + b)[|a| + 1..] == b[1..];
  }

  lemma AdmitOne(s: seq<Process>, m: nat, clock: int)
    requires m < |s|
    ensures Arrived(s[..m + 1], clock)
         == Arrived(s[..m], clock) + (if s[m].arrival <= clock then [s[m]] else [])
    ensures NotArrived(s[..m + 1], clock)
         == NotArrived(s[..m], clock) + (if s[m].arrival <= clock then [] else [s[m]])
    ensures s[m..][0] == s[m] && s[m..][1..] == s[m + 1..]
  {
    assert s[..m + 1][..m] == s[..m];
  }

  /** The index `min_element` returns on `r[..i]` with the burst comparator: the
      first record with the smallest burst. */
  function ShortestUpTo(r: seq<Process>, i: nat): (k: nat)
    requires 0 < i <= |r|
    ensures k < i
    ensures forall j :: 0 <= j < i ==> r[k].burst <= r[j].burst
    ensures forall j :: 0 <= j < k ==> r[k].burst < r[j].burst
  {
    if i == 1 then 0
    else
      var k := ShortestUpTo(r, i - 1);
      if r[i - 1].burst < r[k].burst then i - 1 else k
  }

  function Shortest(r: seq<Process>): nat
    requires r != []
  {
    ShortestUpTo(r, |r|)
  }

  /** `std::min_element` over the ready list. */
  method ShortestJob(ready: seq<Process>) returns (idx: int)
    requires ready != []
    ensures idx == Shortest(ready)
  {
    idx := 0;
    for i := 1 to |ready|
      invariant idx == ShortestUpTo(ready, i)
    {
      if ready[i].burst < ready[idx].burst {
        idx := i;
      }
    }
  }

  /** The ready list once the record at `k` is erased. */
  function Erase(r: seq<Process>, k: nat): (e: seq<Process>)
    requires k < |r|
    ensures |e| == |r| - 1
  {
    r[..k] + r[k + 1..]
  }

  /** The erase takes out exactly the record that ran, once, and keeps every other. */
  lemma EraseRemovesOne(r: seq<Process>, k: nat)
    requires k < |r|
    ensures multiset(Erase(r, k)) == multiset(r) - multiset{r[k]}
  {
    assert r == r[..k] + [r[k]] + r[k + 1..];
  }

  lemma EraseKeeps(r: seq<Process>, k: nat, y: Process)
    requires k < |r| && y in r && y != r[k]
    ensures y in Erase(r, k)
  {
    var i :| 0 <= i < |r| && r[i] == y;
    if i < k {
      assert Erase(r, k)[i] == y;
    } else {
      assert Erase(r, k)[i - 1] == y;
    }
  }

  lemma EraseWithin(r: seq<Process>, k: nat, y: Process)
    requires k < |r| && y in Erase(r, k)
    ensures y in r
  {
    var i :| 0 <= i < |Erase(r, k)| && Erase(r, k)[i] == y;
    if i < k {
      assert r[i] == y;
    } else {
      assert r[i + 1] == y;
    }
  }

  /** The ready list right after admission. */
  function Admitted(s: State): seq<Process>
  {
    s.ready + Arrived(s.temp, s.clock)
  }

  /** One iteration of the `while (completed != n)` loop. */
  function Step(s: State): (r: State)
    ensures |r.procs| == |s.procs|
    ensures Admitted(s) == [] ==>
      r.procs == s.procs && r.ready == [] && r.clock == s.clock + 1 && r.completed == s.completed
    ensures Admitted(s) != [] ==>
      r.completed == s.completed + 1 && |r.ready| + 1 == |Admitted(s)|
  {
    var temp, ready := NotArrived(s.temp, s.clock), Admitted(s);
    if ready == [] then State(s.procs, temp, ready, s.clock + 1, s.completed)
    else
      var k := Shortest(ready);
      var p := RunToEnd(ready[k], s.clock);
      State(WrittenBack(s.procs, p), temp, Erase(ready, k), p.completion, s.completed + 1)
  }

  /** Every process is pending, ready or completed. */
  ghost predicate Live(s: State)
  {
    s.completed + |s.temp| + |s.ready| == |s.procs|
  }

  /** Each iteration from a live state keeps it live and either completes a process
      or idles towards a pending arrival. */
  lemma StepProgress(s: State)
    requires Live(s) && s.completed != |s.procs|
    ensures Live(Step(s))
    ensures Step(s).completed == s.completed + 1
         || (Step(s).completed == s.completed && Step(s).temp == s.temp && Step(s).ready == []
             && s.clock < Step(s).clock <= MaxOf(Arrivals(s.temp)))
  {
    AdmissionSplits(s.temp, s.clock);
    AdmissionMembers(s.temp, s.clock);
    if Admitted(s) == [] {
      assert s.temp[0] in s.temp;
      assert Arrivals(s.temp)[0] == s.temp[0].arrival;
    }
  }

  /** The loop run to its end, from a live state. */
  ghost function Run(s: State): (r: State)
    requires Live(s)
    ensures Live(r) && r.completed == |r.procs|
    decreases |s.temp| + |s.ready|, MaxOf(Arrivals(s.temp)) - s.clock
  {
    if s.completed == |s.procs| then s
    else
      StepProgress(s);
      Run(Step(s))
  }

  /** What the simulator leaves behind for an input list. */
  ghost function Outcome(ps: seq<Process>): (r: State)
    ensures Live(r) && r.completed == |r.procs|
  {
    Run(Init(ps))
  }

  /** SJF on the caller's list; the result and the returned clock are those of the
      reference loop `Run`. */
  method SJF(procs: array<Process>) returns (makespan: int)
    modifies procs
    ensures procs[..] == Outcome(old(procs[..])).procs
    ensures makespan == Outcome(old(procs[..])).clock
  {
    var n := procs.Length;
    var temp := procs[..];
    var ready: seq<Process> := [];
    var clock := 0;
    var completed := 0;
    ghost var s0 := Init(procs[..]);
    while completed != n
      invariant Live(State(procs[..], temp, ready, clock, completed))
      invariant Run(State(procs[..], temp, ready, clock, completed)) == Run(s0)
      decreases |temp| + |ready|, MaxOf(Arrivals(temp)) - clock
    {
      ghost var s := State(procs[..], temp, ready, clock, completed);
      StepProgress(s);
      temp, ready := AdmitArrived(temp, ready, clock);
      if ready == [] {
        clock := clock + 1;
      } else {
        ready, clock := RunShortest(procs, ready, clock);
        completed := completed + 1;
      }
      assert State(procs[..], temp, ready, clock, completed) == Step(s);
    }
    makespan := clock;
  }

  /** Runs the first ready process with the smallest burst to completion, writes it
      back and erases it from the ready list. */
  method RunShortest(procs: array<Process>, ready: seq<Process>, clock: int)
    returns (ready': seq<Process>, clock': int)
    requires ready != []
    modifies procs
    ensures var k := Shortest(ready); var p := RunToEnd(ready[k], clock);
      procs[..] == WrittenBack(old(procs[..]), p) && ready' == Erase(ready, k) && clock' == p.completion
  {
    var k := ShortestJob(ready);
    var p := ready[k];
    p := p.(response := clock - p.arrival);
    p := p.(completion := clock + p.burst);
    p := p.(turnaround := p.completion - p.arrival);
    p := p.(waiting := p.turnaround - p.burst);
    clock' := p.completion;
    WriteBack(procs, p);
    ready' := ready[..k] + ready[k + 1..];
  }

  /** `q` is the record `p` after one uninterrupted run that started no earlier than
      its arrival and ended by `clock`. */
  ghost predicate Done(p: Process, q: Process, clock: int)
  {
    q == RunToEnd(p, p.arrival + q.response) && q.response >= 0 && q.completion <= clock
  }

  ghost predicate Inv(orig: seq<Process>, s: State)
  {
    && Live(s)
    && |s.procs| == |orig|
    && UniqueIds(orig)
    && (forall i :: 0 <= i < |orig| ==> orig[i].burst >= 0 && s.procs[i].id == orig[i].id)
    && (forall x :: x in s.temp || x in s.ready ==> x in orig)
    && (forall x :: x in s.ready ==> x.arrival <= s.clock)
    && forall i :: 0 <= i < |orig| ==>
         || ((orig[i] in s.temp || orig[i] in s.ready) && s.procs[i] == orig[i])
         || Done(orig[i], s.procs[i], s.clock)
  }

  /** Input the source's caller supplies: unique ids and bursts that do not move the
      clock backwards. */
  predicate ValidInput(orig: seq<Process>)
  {
    UniqueIds(orig) && forall i :: 0 <= i < |orig| ==> orig[i].burst >= 0
  }

  /** The job run by `Step` is some input record, written back at its own position. */
  lemma RunnerWrittenBack(orig: seq<Process>, s: State) returns (j: int)
    requires Inv(orig, s) && Admitted(s) != []
    ensures 0 <= j < |orig|
    ensures var x := Admitted(s)[Shortest(Admitted(s))];
      && orig[j] == x && x.arrival <= s.clock
      && Step(s).procs == s.procs[j := RunToEnd(x, s.clock)]
      && Step(s).clock == s.clock + x.burst
      && Done(orig[j], Step(s).procs[j], Step(s).clock)
  {
    var ready := Admitted(s);
    var x := ready[Shortest(ready)];
    AdmissionMembers(s.temp, s.clock);
    assert x in s.ready || x in s.temp;
    j :| 0 <= j < |orig| && orig[j] == x;
    UniqueIdsTransfer(orig, s.procs);
    WrittenBackAt(s.procs, j, RunToEnd(x, s.clock));
    RunToEndDone(x, s.clock);
  }

  lemma RunToEndDone(x: Process, start: int)
    requires x.arrival <= start
    ensures Done(x, RunToEnd(x, start), start + x.burst)
  {
    assert x.arrival + RunToEnd(x, start).response == start;
  }

  /** A process other than the one run stays pending, ready or completed. */
  lemma OtherTracked(s: State, k: nat, x: Process, p: Process, q: Process, clock': int)
    requires Admitted(s) != [] && k == Shortest(Admitted(s)) && x == Admitted(s)[k]
    requires x != p && clock' >= s.clock
    requires ((p in s.temp || p in s.ready) && q == p) || Done(p, q, s.clock)
    ensures || ((p in NotArrived(s.temp, s.clock) || p in Erase(Admitted(s), k)) && q == p)
            || Done(p, q, clock')
  {
    if !Done(p, q, s.clock) {
      AdmissionMembers(s.temp, s.clock);
      if p in s.ready || (p in s.temp && p.arrival <= s.clock) {
        EraseKeeps(Admitted(s), k, p);
      }
    }
  }

  /** After the run, the ready list holds only input records that have arrived. */
  lemma ReadyAfterRun(orig: seq<Process>, s: State)
    requires Inv(orig, s) && Admitted(s) != []
    ensures forall y :: y in Step(s).ready ==> y in orig && y.arrival <= Step(s).clock
  {
    var ready := Admitted(s);
    var k := Shortest(ready);
    AdmissionMembers(s.temp, s.clock);
    var j := RunnerWrittenBack(orig, s);
    forall y | y in Step(s).ready
      ensures y in orig && y.arrival <= Step(s).clock
    {
      EraseWithin(ready, k, y);
    }
  }

  /** After the run, every process other than the one run is still tracked. */
  lemma OthersAfterRun(orig: seq<Process>, s: State, j: int)
    requires Inv(orig, s) && Admitted(s) != [] && 0 <= j < |orig|
    requires orig[j] == Admitted(s)[Shortest(Admitted(s))]
    requires Step(s).procs == s.procs[j := RunToEnd(orig[j], s.clock)]
    requires Step(s).clock == s.clock + orig[j].burst
    ensures forall i :: 0 <= i < |orig| && i != j ==>
      var r := Step(s);
      || ((orig[i] in r.temp || orig[i] in r.ready) && r.procs[i] == orig[i])
      || Done(orig[i], r.procs[i], r.clock)
  {
    var ready := Admitted(s);
    var k := Shortest(ready);
    var r := Step(s);
    assert r.temp == NotArrived(s.temp, s.clock) && r.ready == Erase(ready, k);
    forall i | 0 <= i < |orig| && i != j
      ensures || ((orig[i] in r.temp || orig[i] in r.ready) && r.procs[i] == orig[i])
              || Done(orig[i], r.procs[i], r.clock)
    {
      assert orig[i].id != orig[j].id;
      OtherTracked(s, k, ready[k], orig[i], s.procs[i], r.clock);
    }
  }

  /** Running the shortest admitted job keeps the invariant. */
  lemma RunJobInv(orig: seq<Process>, s: State)
    requires Inv(orig, s) && Admitted(s) != []
    ensures Inv(orig, Step(s))
  {
    AdmissionSplits(s.temp, s.clock);
    AdmissionMembers(s.temp, s.clock);
    var j := RunnerWrittenBack(orig, s);
    ReadyAfterRun(orig, s);
    OthersAfterRun(orig, s, j);
  }

  lemma StepInv(orig: seq<Process>, s: State)
    requires Inv(orig, s) && s.completed != |s.procs|
    ensures Inv(orig, Step(s))
  {
    StepProgress(s);
    if Admitted(s) != [] {
      RunJobInv(orig, s);
    } else {
      IdleInv(orig, s);
    }
  }

  /** An idle tick keeps the invariant: nothing has arrived, so nothing moves. */
  lemma IdleInv(orig: seq<Process>, s: State)
    requires Inv(orig, s) && Admitted(s) == []
    ensures Inv(orig, Step(s))
  {
    assert |Admitted(s)| == |s.ready| + |Arrived(s.temp, s.clock)|;
    AdmissionSplits(s.temp, s.clock);
    var r := Step(s);
    assert r.temp == s.temp && r.ready == s.ready == [] && r.procs == s.procs;
    forall i | 0 <= i < |orig| && Done(orig[i], s.procs[i], s.clock)
      ensures Done(orig[i], r.procs[i], r.clock)
    {
    }
  }

  lemma {:induction false} RunInv(orig: seq<Process>, s: State)
    requires Inv(orig, s)
    ensures Inv(orig, Run(s))
    decreases |s.temp| + |s.ready|, MaxOf(Arrivals(s.temp)) - s.clock
  {
    if s.completed != |s.procs| {
      StepProgress(s);
      StepInv(orig, s);
      RunInv(orig, Step(s));
    }
  }

  /** What SJF delivers: every process is written back, in its input position, as its
      input record run once without interruption from some start time no earlier than
      its arrival (so response == waiting >= 0 and turnaround == completion - arrival),
      finishing no later than the returned clock; `started` and `remaining_time` are
      never touched. */
  lemma Outcomes(orig: seq<Process>)
    requires ValidInput(orig)
    ensures |Outcome(orig).procs| == |orig|
    ensures forall i :: 0 <= i < |orig| ==>
      var q := Outcome(orig).procs[i];
      && q == RunToEnd(orig[i], orig[i].arrival + q.response)
      && SameIdentity(q, orig[i]) && Settled(q)
      && q.started == orig[i].started && q.remaining == orig[i].remaining
      && 0 <= q.response == q.waiting && q.completion <= Outcome(orig).clock
  {
    assert Inv(orig, Init(orig));
    RunInv(orig, Init(orig));
  }

  /** The policy of one iteration: the CPU idles exactly when no ready or pending
      process has arrived; otherwise the process run is a ready or newly arrived one
      whose burst is no longer than that of any other ready or newly arrived process,
      and it starts at the current clock. */
  lemma Choice(s: State)
    ensures Admitted(s) == [] <==> s.ready == [] && forall x :: x in s.temp ==> x.arrival > s.clock
    ensures Admitted(s) != [] ==>
      var x := Admitted(s)[Shortest(Admitted(s))];
      && (x in s.ready || (x in s.temp && x.arrival <= s.clock))
      && (forall y :: y in s.ready || (y in s.temp && y.arrival <= s.clock) ==> x.burst <= y.burst)
      && Step(s).completed == s.completed + 1 && Step(s).clock == s.clock + x.burst
  {
    var a := Admitted(s);
    AdmissionMembers(s.temp, s.clock);
    if a != [] {
      var k := Shortest(a);
      forall y | y in s.ready || (y in s.temp && y.arrival <= s.clock)
        ensures a[k].burst <= y.burst
      {
        assert y in a;
        var i :| 0 <= i < |a| && a[i] == y;
      }
    } else {
      assert forall x :: x in s.ready ==> x in a;
    }
  }
}
