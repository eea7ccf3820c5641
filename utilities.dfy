/** Device and quantization queries of the older top-level helper module
    (utilities.py). The CTranslate2 answers (CUDA device count, the compute
    types a device supports) are parameters. */
module Utilities {
  import SystemUtils
  import opened Common

  /** This copy of the device list behaves exactly like the one in
      utils/system_utils.py. */
  function ComputeAndPlatformInfo(cudaDeviceCount: int): (devices: seq<string>)
    ensures devices == SystemUtils.ComputeAndPlatformInfo(cudaDeviceCount)
    ensures devices[0] == "cpu" && ("cuda" in devices <==> cudaDeviceCount > 0)
  {
    var available := ["cpu"];
    if cudaDeviceCount > 0 then available + ["cuda"] else available
  }

  /** The preferred listing order of compute types. */
  const DesiredOrder: seq<string> :=
    ["float32", "float16", "bfloat16", "int8_float32", "int8_float16", "int8_bfloat16", "int8"]

  /** `[q for q in types if q != 'int16']` */
  function DropInt16(types: seq<string>): (r: seq<string>)
    ensures forall q :: q in r <==> q in types && q != "int16"
  {
    if types == [] then []
    else (if types[0] != "int16" then [types[0]] else []) + DropInt16(types[1..])
  }

  /** `[q for q in order if q in available]` */
  function KeepAvailable(order: seq<string>, available: seq<string>): (r: seq<string>)
    ensures forall q :: q in r <==> q in order && q in available
  {
    if order == [] then []
    else (if order[0] in available then [order[0]] else []) + KeepAvailable(order[1..], available)
  }

  /** Filtering keeps the relative order of what it keeps. */
  lemma {:induction false} KeepAvailableIsSubsequence(order: seq<string>, available: seq<string>)
    ensures IsSubsequence(KeepAvailable(order, available), order)
  {
    if order != [] {
      KeepAvailableIsSubsequence(order[1..], available);
      var tail := KeepAvailable(order[1..], available);
      if order[0] in available {
        assert KeepAvailable(order, available) == [order[0]] + tail;
        assert ([order[0]] + tail)[1..] == tail;
      } else {
        assert KeepAvailable(order, available) == tail;
        if tail != [] {
          assert IsSubsequence(tail, order[1..]);
        }
      }
    }
  }

  lemma DesiredOrderDistinct()
    ensures Distinct(DesiredOrder)
  {
  }

  /** The compute types a device supports, in the preferred order, without
      'int16' and without types the preferred order does not name. */
  function SupportedQuantizations(types: seq<string>): (r: seq<string>)
    ensures "int16" !in r
    ensures forall q :: q in r ==> q in types && q in DesiredOrder
    ensures forall q :: q in types && q in DesiredOrder ==> q in r
    ensures IsSubsequence(r, DesiredOrder)
    ensures Distinct(r)
  {
    var filtered := DropInt16(types);
    DesiredOrderDistinct();
    KeepAvailableIsSubsequence(DesiredOrder, filtered);
    SubsequenceDistinct(KeepAvailable(DesiredOrder, filtered), DesiredOrder);
    KeepAvailable(DesiredOrder, filtered)
  }
}
