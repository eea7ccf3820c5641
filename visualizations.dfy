/**
 * The state-keeping parts of the metrics widgets: the sparkline's bounded
 * window of recent values and the clamping setters of the speedometer and
 * the arc gauge.  Painting is not modelled.  Percentages are `real`.
 */
module Visualizations {

  /** The sparkline's window length when none is given. */
  const DefaultMaxValues: nat := 125

  /** Python's `max(a, b)`: `a` unless `b` is strictly greater. */
  function PyMax(a: real, b: real): (r: real)
    ensures r >= a && r >= b && (r == a || r == b)
  {
    if b > a then b else a
  }

  /** Python's `min(a, b)`: `a` unless `b` is strictly smaller. */
  function PyMin(a: real, b: real): (r: real)
    ensures r <= a && r <= b && (r == a || r == b)
  {
    if b < a then b else a
  }

  /** Appending to a `deque(maxlen=maxValues)`: the newest `maxValues`
      values of the old contents followed by `v` are kept. */
  function Windowed(values: seq<real>, v: real, maxValues: nat): (r: seq<real>)
    ensures |r| == if |values| + 1 > maxValues then maxValues else |values| + 1
  {
    var appended := values + [v];
    if |appended| > maxValues then appended[|appended| - maxValues..] else appended
  }

  /** The window never exceeds its length, keeps the newest values in their
      order, and ends with the value just added (unless its length is 0). */
  lemma WindowedKeepsNewest(values: seq<real>, v: real, maxValues: nat)
    ensures var r := Windowed(values, v, maxValues);
      |r| <= maxValues &&
      (exists d :: 0 <= d <= |values| + 1 && r == (values + [v])[d..]) &&
      (1 <= maxValues ==> r[|r| - 1] == v) &&
      (maxValues == 0 ==> r == [])
  {
    var appended := values + [v];
    var d := if |appended| > maxValues then |appended| - maxValues else 0;
    assert Windowed(values, v, maxValues) == appended[d..];
  }

  /** A full window loses exactly its oldest value; one with room only grows. */
  lemma WindowedDropsOldest(values: seq<real>, v: real, maxValues: nat)
    requires |values| <= maxValues
    ensures |values| == maxValues && values != [] ==>
      Windowed(values, v, maxValues) == values[1..] + [v]
    ensures |values| < maxValues ==> Windowed(values, v, maxValues) == values + [v]
  {
    if |values| == maxValues && values != [] {
      assert (values + [v])[1..] == values[1..] + [v];
    }
  }

  /** The speedometer's `max(min_value, min(max_value, v))`. */
  function Clamped(lo: real, hi: real, v: real): (r: real)
    ensures lo <= hi ==> lo <= r <= hi
    ensures lo <= v <= hi ==> r == v
    ensures hi < lo ==> r == lo
    ensures lo <= hi && v < lo ==> r == lo
    ensures lo <= hi && hi < v ==> r == hi
  {
    PyMax(lo, PyMin(hi, v))
  }

  /** Setting a speedometer to the value it shows changes nothing. */
  lemma ClampedIdempotent(lo: real, hi: real, v: real)
    ensures Clamped(lo, hi, Clamped(lo, hi, v)) == Clamped(lo, hi, v)
  {
  }

  /** The arc gauge's `min(100, max(0, v))`. */
  function ArcLevel(v: real): (r: real)
    ensures 0.0 <= r <= 100.0
    ensures 0.0 <= v <= 100.0 ==> r == v
    ensures v < 0.0 ==> r == 0.0
    ensures 100.0 < v ==> r == 100.0
  {
    PyMin(100.0, PyMax(0.0, v))
  }

  /** The arc gauge clamps like a speedometer over [0, 100], although it
      nests `min` and `max` the other way round, and is idempotent. */
  lemma ArcLevelIsClamp(v: real)
    ensures ArcLevel(v) == Clamped(0.0, 100.0, v)
    ensures ArcLevel(ArcLevel(v)) == ArcLevel(v)
  {
  }

  class Sparkline {
    const maxValues: nat
    var values: seq<real>

    constructor(maxValues: nat := DefaultMaxValues)
      ensures this.maxValues == maxValues && values == []
    {
      this.maxValues := maxValues;
      values := [];
    }

    /** `add_value`: append to the bounded deque. */
    method AddValue(v: real)
      modifies this`values
      ensures values == Windowed(old(values), v, maxValues)
    {
      values := values + [v];
      if |values| > maxValues {
        values := values[|values| - maxValues..];
      }
    }
  }

  class Speedometer {
    const minValue: real
    const maxValue: real
    var currentValue: real

    constructor(minValue: real := 0.0, maxValue: real := 100.0)
      ensures this.minValue == minValue && this.maxValue == maxValue
      ensures currentValue == 0.0
    {
      this.minValue := minValue;
      this.maxValue := maxValue;
      currentValue := 0.0;
    }

    method SetValue(v: real)
      modifies this`currentValue
      ensures currentValue == Clamped(minValue, maxValue, v)
    {
      currentValue := PyMax(minValue, PyMin(maxValue, v));
    }
  }

  class ArcGraph {
    var value: real

    constructor()
      ensures value == 0.0
    {
      value := 0.0;
    }

    method SetValue(v: real)
      modifies this`value
      ensures value == ArcLevel(v)
    {
      value := PyMin(100.0, PyMax(0.0, v));
    }
  }
}
