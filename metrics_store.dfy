/**
 * The metrics store of the monitoring package: a bounded history of
 * samples (the oldest evicted first) and a list of subscriber callbacks
 * that every new sample is handed to, one after the other.
 *
 * Samples are an arbitrary type `M`; subscribers are an equality type `S`
 * standing for the callbacks (Python compares them with `==`).  Whether a
 * callback raises when it is called is an input: the set `raising`.
 */
module MonitoringStore {
  import opened Common

  /** What happened when one subscriber was handed one sample. */
  datatype Notice<S, M> =
    | Delivered(subscriber: S, metrics: M)
    | Failed(subscriber: S, metrics: M)   // the callback raised

  /** The history after `add_metrics(m)`: `m` is appended, and when the
      list is then longer than `bufferSize` its first entry is popped. */
  function Recorded<M>(history: seq<M>, m: M, bufferSize: int): (r: seq<M>)
    ensures |r| == if |history| + 1 > bufferSize then |history| else |history| + 1
  {
    var appended := history + [m];
    if |appended| > bufferSize then appended[1..] else appended
  }

  /** The buffer bound is kept: a history within `bufferSize` stays within it. */
  lemma RecordedWithinBuffer<M>(history: seq<M>, m: M, bufferSize: int)
    requires 0 <= bufferSize && |history| <= bufferSize
    ensures |Recorded(history, m, bufferSize)| <= bufferSize
  {
  }

  /** The new sample is the last entry, unless the buffer holds nothing at all. */
  lemma RecordedNewestLast<M>(history: seq<M>, m: M, bufferSize: int)
    ensures var r := Recorded(history, m, bufferSize);
      (r == [] <==> history == [] && bufferSize < 1) &&
      (r != [] ==> r[|r| - 1] == m)
  {
  }

  /** Eviction drops exactly the oldest entry and keeps the order of the
      others; without eviction the old history is an untouched prefix. */
  lemma RecordedEvictsOldest<M>(history: seq<M>, m: M, bufferSize: int)
    ensures var r := Recorded(history, m, bufferSize);
      if |history| + 1 > bufferSize then
        history != [] ==> r == history[1..] + [m]
      else
        r[..|history|] == history && r == history + [m]
  {
    if |history| + 1 > bufferSize && history != [] {
      assert (history + [m])[1..] == history[1..] + [m];
    }
  }

  /** `get_latest_metrics`: the last history entry, `None` when empty. */
  function Latest<M>(history: seq<M>): (r: Option<M>)
    ensures r.Some? <==> history != []
    ensures r.Some? ==> r.value == history[|history| - 1]
  {
    if history == [] then None else Some(history[|history| - 1])
  }

  /** With room for at least one entry, the latest sample is the one just added. */
  lemma LatestAfterRecorded<M>(history: seq<M>, m: M, bufferSize: int)
    requires 1 <= bufferSize
    ensures Latest(Recorded(history, m, bufferSize)) == Some(m)
  {
    RecordedNewestLast(history, m, bufferSize);
  }

  /** `list.remove(x)` guarded by `x in list`: the first occurrence goes. */
  function RemoveFirst<S(==)>(s: seq<S>, x: S): (r: seq<S>)
    ensures x !in s ==> r == s
    ensures x in s ==> |r| == |s| - 1 && multiset(r) == multiset(s) - multiset{x}
  {
    if s == [] then []
    else
      assert s == [s[0]] + s[1..];
      if s[0] == x then s[1..] else [s[0]] + RemoveFirst(s[1..], x)
  }

  /** The entry removed is the first occurrence: everything before it and
      everything after it stays, in order. */
  lemma {:induction false} RemoveFirstSplits<S>(s: seq<S>, x: S)
    requires x in s
    ensures RemoveFirst(s, x) == s[..IndexOf(s, x)] + s[IndexOf(s, x) + 1..]
  {
    RemoveFirstAt(s, x, IndexOf(s, x));
  }

  lemma {:induction false} RemoveFirstAt<S>(s: seq<S>, x: S, k: nat)
    requires k < |s| && s[k] == x && x !in s[..k]
    ensures RemoveFirst(s, x) == s[..k] + s[k + 1..]
  {
    if k == 0 {
      assert s[..0] + s[1..] == s[1..];
    } else {
      assert s[0] != x by { assert s[0] == s[..k][0]; }
      assert s[1..][..k - 1] == s[1..k];
      assert x !in s[1..][..k - 1] by { assert s[1..k] <= s[..k][1..]; }
      RemoveFirstAt(s[1..], x, k - 1);
      assert [s[0]] + s[1..k] == s[..k];
      assert s[1..][k..] == s[k + 1..];
      AppendAssociative([s[0]], s[1..k], s[k + 1..]);
    }
  }

  /** Subscribing a callback and unsubscribing it again restores the list
      when the callback was not yet subscribed; when it was, the earlier
      registration is the one removed and the new one stays last. */
  lemma {:induction false} SubscribeThenUnsubscribe<S>(s: seq<S>, x: S)
    ensures x !in s ==> RemoveFirst(s + [x], x) == s
    ensures x in s ==> RemoveFirst(s + [x], x) == RemoveFirst(s, x) + [x]
  {
    if s != [] {
      assert (s + [x])[1..] == s[1..] + [x];
      assert x in s <==> s[0] == x || x in s[1..] by { assert s == [s[0]] + s[1..]; }
      SubscribeThenUnsubscribe(s[1..], x);
    }
  }

  /** The notice for handing `m` to one subscriber. */
  function NoticeFor<S, M>(subscriber: S, m: M, raising: set<S>): Notice<S, M>
  {
    if subscriber in raising then Failed(subscriber, m) else Delivered(subscriber, m)
  }

  /** Isolated notification: every subscriber of the snapshot is called in
      order; one that raises is reported and does not stop the others. */
  function Notified<S, M>(subscribers: seq<S>, m: M, raising: set<S>): (r: seq<Notice<S, M>>)
  {
    if subscribers == [] then []
    else
      var n := |subscribers| - 1;
      Notified(subscribers[..n], m, raising) + [NoticeFor(subscribers[n], m, raising)]
  }

  /** Every subscriber is called once, in subscription order, with the new
      sample, and failed exactly when it raises. */
  lemma {:induction false} NotifiedCallsEveryone<S, M>(subscribers: seq<S>, m: M, raising: set<S>)
    ensures var r := Notified(subscribers, m, raising);
      |r| == |subscribers| &&
      forall i :: 0 <= i < |r| ==>
        r[i].subscriber == subscribers[i] && r[i].metrics == m &&
        (r[i].Failed? <==> subscribers[i] in raising)
  {
    if subscribers != [] {
      var n := |subscribers| - 1;
      NotifiedCallsEveryone(subscribers[..n], m, raising);
    }
  }

  /** One step of the notification loop. */
  lemma NotifiedStep<S, M>(subscribers: seq<S>, i: nat, m: M, raising: set<S>)
    requires i < |subscribers|
    ensures Notified(subscribers[..i + 1], m, raising)
      == Notified(subscribers[..i], m, raising) + [NoticeFor(subscribers[i], m, raising)]
  {
    TakeLonger(subscribers, i);
  }

  class MetricsStore<M, S(==)> {
    const bufferSize: int
    var history: seq<M>
    var subscribers: seq<S>
    /** Every callback invocation so far, in order. */
    var notices: seq<Notice<S, M>>

    constructor(bufferSize: int := 100)
      ensures this.bufferSize == bufferSize
      ensures history == [] && subscribers == [] && notices == []
    {
      this.bufferSize := bufferSize;
      history := [];
      subscribers := [];
      notices := [];
    }

    /** `add_metrics`: record the sample, then notify outside the lock. */
    method AddMetrics(m: M, raising: set<S>)
      modifies this
      ensures history == Recorded(old(history), m, bufferSize)
      ensures subscribers == old(subscribers)
      ensures notices == old(notices) + Notified(old(subscribers), m, raising)
    {
      history := history + [m];
      if |history| > bufferSize {
        history := history[1..];
      }
      NotifySubscribers(m, raising);
    }

    method Subscribe(callback: S)
      modifies this`subscribers
      ensures subscribers == old(subscribers) + [callback]
    {
      subscribers := subscribers + [callback];
    }

    method Unsubscribe(callback: S)
      modifies this`subscribers
      ensures subscribers == RemoveFirst(old(subscribers), callback)
    {
      if callback in subscribers {
        var k := IndexOf(subscribers, callback);
        RemoveFirstSplits(subscribers, callback);
        subscribers := subscribers[..k] + subscribers[k + 1..];
      }
    }

    /** `_notify_subscribers`: walk a snapshot of the subscriber list,
        catching and reporting what each callback raises. */
    method NotifySubscribers(m: M, raising: set<S>)
      modifies this`notices
      ensures notices == old(notices) + Notified(subscribers, m, raising)
    {
      var snapshot := subscribers;
      var i := 0;
      while i < |snapshot|
        invariant i <= |snapshot|
        invariant notices == old(notices) + Notified(snapshot[..i], m, raising)
      {
        NotifiedStep(snapshot, i, m, raising);
        AppendAssociative(old(notices), Notified(snapshot[..i], m, raising),
          [NoticeFor(snapshot[i], m, raising)]);
        notices := notices + [NoticeFor(snapshot[i], m, raising)];
        i := i + 1;
      }
      TakeAll(snapshot);
    }

    method GetLatestMetrics() returns (r: Option<M>)
      ensures r == Latest(history)
    {
      r := if history == [] then None else Some(history[|history| - 1]);
    }

    /** `clear` forgets the samples only. */
    method Clear()
      modifies this`history
      ensures history == []
    {
      history := [];
    }
  }
}
