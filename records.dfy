/** The process record shared by every simulator, and the record operations the
    simulators have in common: the constructor, filling in the timing fields when a
    process is dispatched or finishes, and writing a simulator's working copy back
    into the caller's list by matching the process id. */
module Records {

  import opened Counting

  /** Largest value of a 32-bit `int`; the selection scans start from it. */
  const INT_MAX: int := 0x7fff_ffff

  /** One simulated task. `remaining`, `completion`, `turnaround`, `waiting`,
      `response` and `started` are the fields a simulator fills in. */
  datatype Process = Process(
    id: int,
    arrival: int,
    burst: int,
    priority: int,
    remaining: int,
    completion: int,
    turnaround: int,
    waiting: int,
    response: int,
    started: bool)

  /** The state the constructor leaves a record in: nothing has run yet and the
      response time holds its sentinel -1. */
  predicate Pristine(p: Process)
  {
    && p.remaining == p.burst
    && p.completion == 0
    && p.turnaround == 0
    && p.waiting == 0
    && p.response == -1
    && !p.started
  }

  /** The four fields given when the process is created, which no simulator changes. */
  predicate SameIdentity(p: Process, q: Process)
  {
    p.id == q.id && p.arrival == q.arrival && p.burst == q.burst && p.priority == q.priority
  }

  /** The derived times of a finished process agree with its completion time. */
  predicate Settled(p: Process)
  {
    p.turnaround == p.completion - p.arrival && p.waiting == p.turnaround - p.burst
  }

  predicate UniqueIds(ps: seq<Process>)
  {
    forall i, j :: 0 <= i < j < |ps| ==> ps[i].id != ps[j].id
  }

  predicate AllPristine(ps: seq<Process>)
  {
    forall i :: 0 <= i < |ps| ==> Pristine(ps[i])
  }

  function Max(a: int, b: int): (m: int)
    ensures m >= a && m >= b && (m == a || m == b)
  {
    if a < b then b else a
  }

  /** The constructor `Process(_id, _arrival, _burst, _priority)`. */
  function NewProcess(id: int, arrival: int, burst: int, priority: int): (p: Process)
    ensures Pristine(p)
    ensures p.id == id && p.arrival == arrival && p.burst == burst && p.priority == priority
  {
    Process(id, arrival, burst, priority, burst, 0, 0, 0, -1, false)
  }

  /** Records the completion of `p` at time `clock` and derives turnaround and waiting
      time from it; every other field is left as it was. */
  function Finish(p: Process, clock: int): (q: Process)
    ensures Settled(q) && SameIdentity(q, p) && q.completion == clock
    ensures q.remaining == p.remaining && q.response == p.response && q.started == p.started
  {
    p.(completion := clock, turnaround := clock - p.arrival,
       waiting := clock - p.arrival - p.burst)
  }

  /** A non-preemptive run without the `started` bookkeeping (FCFS and SJF): the
      process gets the CPU at `start` and keeps it for its whole burst. */
  function RunToEnd(p: Process, start: int): (q: Process)
    ensures Settled(q) && SameIdentity(q, p)
    ensures q.completion == start + p.burst && q.response == q.waiting == start - p.arrival
    ensures q.remaining == p.remaining && q.started == p.started
  {
    Finish(p.(response := start - p.arrival), start + p.burst)
  }

  /** The first-dispatch bookkeeping of SRTF, RR and Priority: the response time is
      taken, and `started` set, only when the process has not run before. */
  function Dispatch(p: Process, clock: int): (q: Process)
    ensures q.started && SameIdentity(q, p) && q.remaining == p.remaining
    ensures q.response == (if p.started then p.response else clock - p.arrival)
    ensures q.completion == p.completion && q.turnaround == p.turnaround && q.waiting == p.waiting
  {
    if p.started then p else p.(response := clock - p.arrival, started := true)
  }

  /** The position of the first record whose id is `id`, or -1 when there is none. */
  function IdIndex(ps: seq<Process>, id: int): (k: int)
    ensures -1 <= k < |ps|
    ensures 0 <= k ==> ps[k].id == id
    ensures forall j :: 0 <= j < |ps| && (k < 0 || j < k) ==> ps[j].id != id
  {
    if ps == [] then -1
    else if ps[0].id == id then 0
    else
      var k := IdIndex(ps[1..], id);
      if k < 0 then -1 else k + 1
  }

  /** The caller's list after a simulator copies its record `x` over the first
      record with the same id; the list is unchanged when no id matches. */
  function WrittenBack(ps: seq<Process>, x: Process): (r: seq<Process>)
    ensures |r| == |ps|
    ensures forall i :: 0 <= i < |ps| ==> r[i] == ps[i] || (r[i] == x && ps[i].id == x.id)
    ensures forall i :: 0 <= i < |ps| && ps[i].id == x.id ==> x in r
    ensures forall i, j :: 0 <= i < j < |ps| && ps[i].id == x.id ==> r[j] == ps[j]
  {
    var k := IdIndex(ps, x.id);
    if k < 0 then ps else ps[k := x]
  }

  /** With unique ids the write-back lands on the record of that process and nowhere else. */
  lemma WrittenBackAt(ps: seq<Process>, j: int, x: Process)
    requires UniqueIds(ps) && 0 <= j < |ps| && ps[j].id == x.id
    ensures WrittenBack(ps, x) == ps[j := x]
  {
  }

  /** Ids are unique in a list whose records carry, position by position, the ids of a
      list with unique ids. */
  lemma UniqueIdsTransfer(ps: seq<Process>, qs: seq<Process>)
    requires UniqueIds(ps) && |qs| == |ps|
    requires forall i :: 0 <= i < |ps| ==> qs[i].id == ps[i].id
    ensures UniqueIds(qs)
  {
  }

  /** The linear search that copies a simulator's record back into the caller's list. */
  method WriteBack(a: array<Process>, x: Process)
    modifies a
    ensures a[..] == WrittenBack(old(a[..]), x)
  {
    var i := 0;
    while i < a.Length
      invariant 0 <= i <= a.Length
      invariant a[..] == old(a[..])
      invariant forall j :: 0 <= j < i ==> a[j].id != x.id
    {
      if a[i].id == x.id {
        a[i] := x;
        return;
      }
      i := i + 1;
    }
  }

  /** Sum of the burst times, the CPU time the whole dataset needs. */
  function TotalBurst(ps: seq<Process>): int
  {
    Sum(Bursts(ps))
  }

  function Bursts(ps: seq<Process>): seq<int>
  {
    seq(|ps|, i requires 0 <= i < |ps| => ps[i].burst)
  }

  /** The arrival times, in list order; the last of them bounds every idle stretch. */
  function Arrivals(temp: seq<Process>): seq<int>
  {
    seq(|temp|, i requires 0 <= i < |temp| => temp[i].arrival)
  }
}
