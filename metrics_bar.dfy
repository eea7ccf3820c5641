/**
 * The older, self-contained metrics bar: its own metrics store (same
 * history and subscriber rules as the monitoring store, but a callback
 * that raises ends the notification and propagates out of `add_metrics`),
 * its own sparkline, speedometer and arc gauge, and the bar that switches
 * between four visualizations.
 */
module MetricsBar {
  import opened Common
  import MonitoringStore
  import Visualizations

  type Notice<S, M> = MonitoringStore.Notice<S, M>

  /** The position of the first subscriber that raises, or the length of
      the list when none does. */
  function FirstRaising<S>(subscribers: seq<S>, raising: set<S>): (k: nat)
    ensures k <= |subscribers|
    ensures forall i :: 0 <= i < k ==> subscribers[i] !in raising
    ensures k < |subscribers| ==> subscribers[k] in raising
  {
    if subscribers == [] then 0
    else if subscribers[0] in raising then 0
    else 1 + FirstRaising(subscribers[1..], raising)
  }

  /** How many subscribers get called: all of them up to and including the
      first that raises. */
  function Reached<S>(subscribers: seq<S>, raising: set<S>): (n: nat)
    ensures n <= |subscribers|
  {
    var k := FirstRaising(subscribers, raising);
    if k < |subscribers| then k + 1 else k
  }

  /** The exception that leaves `add_metrics`: the first raising subscriber's. */
  function Raised<S>(subscribers: seq<S>, raising: set<S>): Option<S>
  {
    var k := FirstRaising(subscribers, raising);
    if k < |subscribers| then Some(subscribers[k]) else None
  }

  /** Without isolation, the calls made are the first `Reached` subscribers
      in order; all of them but the last one succeed; an exception escapes
      exactly when some subscriber raises, and it is the last one called;
      when none raises every subscriber is reached, as with isolation. */
  lemma UnisolatedStopsAtFirstFailure<S, M>(subscribers: seq<S>, m: M, raising: set<S>)
    ensures var n := Reached(subscribers, raising);
      var calls := MonitoringStore.Notified(subscribers[..n], m, raising);
      var raised := Raised(subscribers, raising);
      |calls| == n &&
      (forall i :: 0 <= i < n ==> calls[i].subscriber == subscribers[i] && calls[i].metrics == m) &&
      (forall i :: 0 <= i < n - 1 ==> calls[i].Delivered?) &&
      (raised.Some? <==> exists j :: 0 <= j < |subscribers| && subscribers[j] in raising) &&
      (raised.Some? ==> calls[n - 1] == MonitoringStore.Failed(raised.value, m)) &&
      (raised.None? ==> calls == MonitoringStore.Notified(subscribers, m, raising))
  {
    var n := Reached(subscribers, raising);
    MonitoringStore.NotifiedCallsEveryone(subscribers[..n], m, raising);
    TakeAll(subscribers);
  }

  class MetricsStore<M, S(==)> {
    const bufferSize: int
    var history: seq<M>
    var subscribers: seq<S>
    /** Every callback invocation so far, in order. */
    var notices: seq<Notice<S, M>>

    constructor(bufferSize: int := 100)
      ensures this.bufferSize == bufferSize
      ensures history == [] && subscribers == [] && notices == []
    {
      this.bufferSize := bufferSize;
      history := [];
      subscribers := [];
      notices := [];
    }

    /** `add_metrics`: the history is updated before any callback runs, so
        it holds the sample even when a callback's exception escapes. */
    method AddMetrics(m: M, raising: set<S>) returns (raised: Option<S>)
      modifies this
      ensures history == MonitoringStore.Recorded(old(history), m, bufferSize)
      ensures subscribers == old(subscribers)
      ensures notices == old(notices) + MonitoringStore.Notified(
        old(subscribers)[..Reached(old(subscribers), raising)], m, raising)
      ensures raised == Raised(old(subscribers), raising)
    {
      history := history + [m];
      if |history| > bufferSize {
        history := history[1..];
      }
      raised := NotifySubscribers(m, raising);
    }

    method Subscribe(callback: S)
      modifies this`subscribers
      ensures subscribers == old(subscribers) + [callback]
    {
      subscribers := subscribers + [callback];
    }

    method Unsubscribe(callback: S)
      modifies this`subscribers
      ensures subscribers == MonitoringStore.RemoveFirst(old(subscribers), callback)
    {
      if callback in subscribers {
        var k := IndexOf(subscribers, callback);
        MonitoringStore.RemoveFirstSplits(subscribers, callback);
        subscribers := subscribers[..k] + subscribers[k + 1..];
      }
    }

    /** `_notify_subscribers`: call the snapshot's subscribers in order;
        the first exception ends the loop and is handed back. */
    method NotifySubscribers(m: M, raising: set<S>) returns (raised: Option<S>)
      modifies this`notices
      ensures notices == old(notices) + MonitoringStore.Notified(
        subscribers[..Reached(subscribers, raising)], m, raising)
      ensures raised == Raised(subscribers, raising)
    {
      var snapshot := subscribers;
      var i := 0;
      while i < |snapshot|
        invariant i <= |snapshot|
        invariant forall j :: 0 <= j < i ==> snapshot[j] !in raising
        invariant notices == old(notices) + MonitoringStore.Notified(snapshot[..i], m, raising)
      {
        var notice := MonitoringStore.NoticeFor(snapshot[i], m, raising);
        MonitoringStore.NotifiedStep(snapshot, i, m, raising);
        AppendAssociative(old(notices), MonitoringStore.Notified(snapshot[..i], m, raising), [notice]);
        notices := notices + [notice];
        if snapshot[i] in raising {
          assert FirstRaising(snapshot, raising) == i;
          return Some(snapshot[i]);
        }
        i := i + 1;
      }
      assert FirstRaising(snapshot, raising) == i;
      raised := None;
    }
  }

  class Sparkline {
    const maxValues: nat
    var values: seq<real>

    constructor(maxValues: nat := Visualizations.DefaultMaxValues)
      ensures this.maxValues == maxValues && values == []
    {
      this.maxValues := maxValues;
      values := [];
    }

    method AddValue(v: real)
      modifies this`values
      ensures values == Visualizations.Windowed(old(values), v, maxValues)
    {
      values := values + [v];
      if |values| > maxValues {
        values := values[|values| - maxValues..];
      }
    }
  }

  class Speedometer {
    const minValue: real
    const maxValue: real
    var currentValue: real

    constructor(minValue: real := 0.0, maxValue: real := 100.0)
      ensures this.minValue == minValue && this.maxValue == maxValue
      ensures currentValue == 0.0
    {
      this.minValue := minValue;
      this.maxValue := maxValue;
      currentValue := 0.0;
    }

    method SetValue(v: real)
      modifies this`currentValue
      ensures currentValue == Visualizations.Clamped(minValue, maxValue, v)
    {
      currentValue := Visualizations.PyMax(minValue, Visualizations.PyMin(maxValue, v));
    }
  }

  class ArcGraph {
    var value: real

    constructor()
      ensures value == 0.0
    {
      value := 0.0;
    }

    method SetValue(v: real)
      modifies this`value
      ensures value == Visualizations.ArcLevel(v)
    {
      value := Visualizations.PyMin(100.0, Visualizations.PyMax(0.0, v));
    }
  }

  /** The widget on show: which visualization it is (0 bars, 1 sparklines,
      2 speedometers, 3 arcs) and whether it has been cleaned up and
      scheduled for deletion. */
  datatype View = View(kind: int, disposed: bool)

  datatype Display = Display(visualizationType: int, current: View)

  /** The bar starts on the sparkline visualization. */
  const InitialDisplay := Display(1, View(1, false))

  /** `change_visualization(index)`: nothing happens for the index already
      selected; otherwise the old widget is cleaned up and a new one of the
      chosen kind shown.  An index outside 0..3 records the index but
      re-adds the disposed old widget. */
  function Switched(d: Display, index: int): (r: Display)
    ensures r.visualizationType == index
  {
    if index == d.visualizationType then d
    else if 0 <= index <= 3 then Display(index, View(index, false))
    else Display(index, d.current.(disposed := true))
  }

  /** Choosing the current visualization is a no-op, choosing a valid one
      shows a live widget of that kind, and choosing twice is choosing once. */
  lemma SwitchedProperties(d: Display, index: int)
    ensures Switched(d, d.visualizationType) == d
    ensures 0 <= index <= 3 && index != d.visualizationType ==>
      Switched(d, index).current == View(index, false)
    ensures Switched(Switched(d, index), index) == Switched(d, index)
    ensures !(0 <= index <= 3) && index != d.visualizationType ==>
      Switched(d, index).current == d.current.(disposed := true)
  {
  }

  /** From the initial display, every menu choice shows a live widget of
      the chosen kind, whatever the order of the choices. */
  lemma {:induction false} MenuChoicesShowLiveWidget(choices: seq<int>)
    requires forall i :: 0 <= i < |choices| ==> 0 <= choices[i] <= 3
    ensures var d := Chosen(InitialDisplay, choices);
      d.current == View(d.visualizationType, false) && 0 <= d.visualizationType <= 3
  {
    if choices != [] {
      MenuChoicesShowLiveWidget(choices[..|choices| - 1]);
    }
  }

  /** The display after a series of `change_visualization` calls. */
  function Chosen(d: Display, choices: seq<int>): Display
  {
    if choices == [] then d
    else Switched(Chosen(d, choices[..|choices| - 1]), choices[|choices| - 1])
  }

  /** The `MetricsBar` widget's visualization switching. */
  class Bar {
    var visualizationType: int
    var current: View

    constructor()
      ensures Shown() == InitialDisplay
    {
      visualizationType := 1;
      current := View(1, false);
    }

    function Shown(): Display
      reads this
    {
      Display(visualizationType, current)
    }

    method ChangeVisualization(index: int)
      modifies this
      ensures Shown() == Switched(old(Shown()), index)
    {
      if index == visualizationType {
        return;
      }
      visualizationType := index;
      current := current.(disposed := true);
      if 0 <= index <= 3 {
        current := View(index, false);
      }
    }
  }
}
