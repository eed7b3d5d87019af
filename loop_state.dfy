/** What the clock-driven simulators share: the loop state of SRTF and Priority
    scheduling, which keep an `is_completed` flag per process and a `completed`
    counter. */
module LoopState {

  import opened Records
  import opened Counting

  /** The loop state of SRTF and Priority: the caller's list, the working copy `temp`,
      the `is_completed` flags, the clock and the number of completed processes. */
  datatype State = State(
    procs: seq<Process>,
    temp: seq<Process>,
    done: seq<bool>,
    clock: int,
    completed: int)

  /** Before the first iteration: `temp` is a copy of the list, no flag is set, and
      the clock and the counter are 0; the counter agrees with the flags. */
  function Init(ps: seq<Process>): (r: State)
    ensures |r.done| == |r.temp| == |ps| && r.clock == 0
    ensures forall i :: 0 <= i < |r.done| ==> !r.done[i]
    ensures Counted(r) && r.completed == 0
  {
    CountTrueNone(|ps|);
    State(ps, ps, seq(|ps|, _ => false), 0, 0)
  }

  /** `completed` counts the set `is_completed` flags. */
  ghost predicate Counted(s: State)
  {
    |s.temp| == |s.done| && s.completed == CountTrue(s.done)
  }

  /** Setting one more `is_completed` flag adds exactly one to the count, so
      `completed++` alongside it keeps the state counted. */
  lemma FlagCounted(s: State, k: int)
    requires Counted(s) && 0 <= k < |s.done| && !s.done[k]
    ensures CountTrue(s.done[k := true]) == s.completed + 1
  {
    CountTrueUpdate(s.done, k, true);
  }
}
