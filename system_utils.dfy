/** Device and processor queries (utils/system_utils.py). What the foreign
    libraries report (CUDA device count, the logical core count, CUDA
    availability and compute capability) is passed in as parameters. */
module SystemUtils {
  import opened Common

  /** The devices offered to the user: "cpu" always, then "cuda" when at
      least one CUDA device is visible. */
  function ComputeAndPlatformInfo(cudaDeviceCount: int): (devices: seq<string>)
    ensures |devices| >= 1 && devices[0] == "cpu"
    ensures "cuda" in devices <==> cudaDeviceCount > 0
    ensures forall d :: d in devices ==> d == "cpu" || d == "cuda"
    ensures |devices| <= 2
  {
    if cudaDeviceCount > 0 then ["cpu", "cuda"] else ["cpu"]
  }

  /** `psutil.cpu_count(logical=True) or 1`: a missing count (None) and a
      count of zero both fall back to one. */
  function LogicalCoreCount(reported: Option<int>): (cores: int)
    ensures (reported.None? || reported.value >= 0) ==> cores >= 1
    ensures reported.Some? && reported.value != 0 ==> cores == reported.value
    ensures reported.None? || reported.value == 0 ==> cores == 1
  {
    match reported
    case None => 1
    case Some(n) => if n == 0 then 1 else n
  }

  /** Python's ordering of tuples of integers: the first differing position
      decides; when one is a prefix of the other, the shorter is smaller. */
  predicate TupleLess(a: seq<int>, b: seq<int>)
  {
    if a == [] then b != []
    else if b == [] then false
    else a[0] < b[0] || (a[0] == b[0] && TupleLess(a[1..], b[1..]))
  }

  /** `capability >= (8, 6)` evaluated as Python does for tuples. */
  predicate TupleAtLeast(a: seq<int>, b: seq<int>)
  {
    !TupleLess(a, b)
  }

  /** bfloat16 needs a CUDA device whose compute capability is at least 8.6. */
  function HasBfloat16Support(cudaAvailable: bool, capability: seq<int>): (ok: bool)
    ensures !cudaAvailable ==> !ok
  {
    cudaAvailable && TupleAtLeast(capability, [8, 6])
  }

  /** For the (major, minor) pair that torch reports, the tuple comparison is
      "a newer major version, or major 8 with minor at least 6". */
  lemma {:induction false} Bfloat16Capability(cudaAvailable: bool, major: int, minor: int)
    ensures HasBfloat16Support(cudaAvailable, [major, minor])
            <==> cudaAvailable && (major > 8 || (major == 8 && minor >= 6))
  {
    var a: seq<int> := [major, minor];
    var b: seq<int> := [8, 6];
    assert a[1..] == [minor] && b[1..] == [6];
    assert a[1..][1..] == [] && b[1..][1..] == [];
    assert TupleLess(a[1..], b[1..]) <==> minor < 6;
    assert TupleLess(a, b) <==> major < 8 || (major == 8 && minor < 6);
  }

  /** Threads given to CPU inference: reserve eight logical cores for the
      system and the UI, but never use fewer than four threads. */
  function OptimalCpuThreads(reported: Option<int>): (threads: int)
    ensures threads >= 4
    ensures threads == Max(4, LogicalCoreCount(reported) - 8)
    ensures LogicalCoreCount(reported) >= 12 ==> threads == LogicalCoreCount(reported) - 8
    ensures LogicalCoreCount(reported) <= 12 ==> threads == 4
  {
    var cores := LogicalCoreCount(reported);
    if cores - 8 > 4 then cores - 8 else 4
  }
}
