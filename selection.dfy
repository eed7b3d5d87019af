/** The selection scan that SRTF and Priority scheduling share: walk the processes in
    index order and keep the first eligible one whose key is strictly below the best
    key seen so far, where "best so far" starts at INT_MAX. */
module Selection {

  import opened Records

  /** The index the scan holds after looking at indices `0 .. i - 1`, or -1. */
  function ScanUpTo(keys: seq<int>, ok: seq<bool>, i: nat): (k: int)
    requires |keys| == |ok| && i <= |keys|
    ensures -1 <= k < i
    ensures k < 0 <==> forall j :: 0 <= j < i ==> !ok[j] || keys[j] >= INT_MAX
    ensures k >= 0 ==> ok[k] && keys[k] < INT_MAX
    ensures k >= 0 ==> forall j :: 0 <= j < i && ok[j] ==> keys[k] <= keys[j]
    ensures k >= 0 ==> forall j :: 0 <= j < k && ok[j] ==> keys[k] < keys[j]
  {
    if i == 0 then -1
    else
      var k := ScanUpTo(keys, ok, i - 1);
      var best := if k < 0 then INT_MAX else keys[k];
      if ok[i - 1] && keys[i - 1] < best then i - 1 else k
  }

  /** The whole scan: the lowest-index eligible process with the strictly smallest
      key, or -1 when no eligible process has a key below INT_MAX. */
  function Pick(keys: seq<int>, ok: seq<bool>): int
    requires |keys| == |ok|
  {
    ScanUpTo(keys, ok, |keys|)
  }
}
