/** The in-process sliding-window limiter, and the plain event log it stands for. */
module RateLimiter {

  const SWEEP_THRESHOLD := 1024

  type Key = string

  datatype Limits = Limits(maxEvents: int, window: int)

  // ---------------------------------------------------------------------
  // The limiter's own state: a deque of accepted times per key.

  type Events = map<Key, seq<int>>

  /** The deque after the pruning loop. */
  function Recent(l: Limits, times: seq<int>, now: int): seq<int> {
    if times != [] && now - times[0] > l.window then Recent(l, times[1..], now) else times
  }

  lemma {:induction false} RecentIsSuffix(l: Limits, times: seq<int>, now: int)
    ensures |Recent(l, times, now)| <= |times|
    ensures var d := |times| - |Recent(l, times, now)|;
            && Recent(l, times, now) == times[d..]
            && (forall i :: 0 <= i < d ==> now - times[i] > l.window)
            && (d < |times| ==> now - times[d] <= l.window)
  {
    if times != [] && now - times[0] > l.window {
      RecentIsSuffix(l, times[1..], now);
      var d := |times| - |Recent(l, times, now)|;
      forall i | 0 <= i < d
        ensures now - times[i] > l.window
      {
        if i > 0 { assert times[i] == times[1..][i - 1]; }
      }
      assert times[1..][d - 1..] == times[d..];
    }
  }

  predicate Expired(l: Limits, times: seq<int>, now: int) {
    times == [] || now - times[|times| - 1] > l.window
  }

  function Swept(l: Limits, events: Events, now: int): Events {
    if |events| > SWEEP_THRESHOLD then map k | k in events && !Expired(l, events[k], now) :: events[k] else events
  }

  function Of(events: Events, key: Key): seq<int> {
    if key in events then events[key] else []
  }

  function Checked(l: Limits, events: Events, key: Key, now: int): (Events, bool) {
    var swept := Swept(l, events, now);
    var times := Recent(l, Of(swept, key), now);
    if |times| >= l.maxEvents then (swept[key := times], false) else (swept[key := times + [now]], true)
  }

  class SlidingWindowLimiter {
    const limits: Limits
    var events: Events

    constructor (maxEvents: int, window: int)
      ensures limits == Limits(maxEvents, window) && events == map[]
    {
      limits := Limits(maxEvents, window);
      events := map[];
    }

    method SweepLocked(now: int)
      modifies this
      ensures events == map k | k in old(events) && !Expired(limits, old(events)[k], now) :: old(events)[k]
    {
      var expired := set k | k in events && Expired(limits, events[k], now);
      while expired != {}
        invariant forall k :: k in expired ==> k in old(events) && Expired(limits, old(events)[k], now)
        invariant events == map k | k in old(events)
                    && (!Expired(limits, old(events)[k], now) || k in expired) :: old(events)[k]
        decreases |expired|
      {
        var key :| key in expired;
        events := events - {key};
        expired := expired - {key};
      }
    }

    method Check(key: Key, now: int) returns (allowed: bool)
      modifies this
      ensures (events, allowed) == Checked(limits, old(events), key, now)
    {
      if |events| > SWEEP_THRESHOLD {
        SweepLocked(now);
      }
      assert events == Swept(limits, old(events), now);
      ghost var swept := events;
      var times := if key in events then events[key] else [];
      while times != [] && now - times[0] > limits.window
        invariant Recent(limits, times, now) == Recent(limits, Of(swept, key), now)
        decreases |times|
      {
        times := times[1..];
      }
      allowed := |times| < limits.maxEvents;
      events := events[key := if allowed then times + [now] else times];
    }
  }

  // ---------------------------------------------------------------------
  // The plain form: every accepted event, forever.

  datatype Call = Call(key: Key, at: int)

  /** How many accepted events of `key` lie in the closed interval. */
  function CountIn(log: seq<Call>, key: Key, from: int, to: int): nat {
    if log == [] then 0
    else
      var last := log[|log| - 1];
      CountIn(log[..|log| - 1], key, from, to) + (if last.key == key && from <= last.at <= to then 1 else 0)
  }

  predicate PlainAllows(l: Limits, log: seq<Call>, c: Call) {
    CountIn(log, c.key, c.at - l.window, c.at) < l.maxEvents
  }

  datatype Outcome<S> = Outcome(state: S, verdicts: seq<bool>)

  function RunPlain(l: Limits, calls: seq<Call>): Outcome<seq<Call>> {
    if calls == [] then Outcome([], [])
    else
      var before := RunPlain(l, calls[..|calls| - 1]);
      var c := calls[|calls| - 1];
      var ok := PlainAllows(l, before.state, c);
      Outcome(if ok then before.state + [c] else before.state, before.verdicts + [ok])
  }

  function RunLimiter(l: Limits, calls: seq<Call>): Outcome<Events> {
    if calls == [] then Outcome(map[], [])
    else
      var before := RunLimiter(l, calls[..|calls| - 1]);
      var c := calls[|calls| - 1];
      var after := Checked(l, before.state, c.key, c.at);
      Outcome(after.0, before.verdicts + [after.1])
  }

  predicate Monotone(calls: seq<Call>) {
    forall i, j :: 0 <= i < j < |calls| ==> calls[i].at <= calls[j].at
  }

  // ---------------------------------------------------------------------
  // Refinement.

  function Times(log: seq<Call>, key: Key): seq<int> {
    if log == [] then []
    else
      var last := log[|log| - 1];
      if last.key == key then Times(log[..|log| - 1], key) + [last.at] else Times(log[..|log| - 1], key)
  }

  predicate Ordered(times: seq<int>, now: int) {
    && (forall i, j :: 0 <= i < j < |times| ==> times[i] <= times[j])
    && (forall i :: 0 <= i < |times| ==> times[i] <= now)
  }

  /** The deque is the end of the key's log, and what it dropped is out of the
      window for good. */
  predicate Tail(l: Limits, stored: seq<int>, times: seq<int>, now: int) {
    && |stored| <= |times| && stored == times[|times| - |stored|..]
    && forall i :: 0 <= i < |times| - |stored| ==> now - times[i] > l.window
  }

  ghost predicate Refines(l: Limits, events: Events, log: seq<Call>, now: int) {
    forall key :: Ordered(Times(log, key), now) && Tail(l, Of(events, key), Times(log, key), now)
  }

  function CountFrom(times: seq<int>, from: int, to: int): nat {
    if times == [] then 0
    else CountFrom(times[..|times| - 1], from, to) + (if from <= times[|times| - 1] <= to then 1 else 0)
  }

  lemma {:induction false} CountByKey(log: seq<Call>, key: Key, from: int, to: int)
    ensures CountIn(log, key, from, to) == CountFrom(Times(log, key), from, to)
  {
    if log != [] {
      CountByKey(log[..|log| - 1], key, from, to);
      var t := Times(log[..|log| - 1], key);
      assert (t + [log[|log| - 1].at])[..|t|] == t;
    }
  }

  lemma {:induction false} CountSplit(times: seq<int>, d: nat, from: int, to: int)
    requires d <= |times|
    requires forall i :: 0 <= i < d ==> times[i] < from
    requires forall i :: d <= i < |times| ==> from <= times[i] <= to
    ensures CountFrom(times, from, to) == |times| - d
  {
    if d < |times| {
      CountSplit(times[..|times| - 1], d, from, to);
    } else if d > 0 {
      CountSplit(times[..|times| - 1], d - 1, from, to);
    }
  }

  lemma ExpiredForgotten(l: Limits, stored: seq<int>, times: seq<int>, now: int)
    requires Ordered(times, now) && Tail(l, stored, times, now) && Expired(l, stored, now)
    ensures Recent(l, stored, now) == [] && Tail(l, [], times, now)
  {
    if stored != [] {
      var last := |times| - 1;
      assert stored[|stored| - 1] == times[last];
      forall i | 0 <= i < |times|
        ensures now - times[i] > l.window
      {
        assert times[i] <= times[last];
      }
      RecentIsSuffix(l, stored, now);
    }
  }

  /** Sweeping is unobservable: it forgets only what pruning would forget. */
  lemma SweepUnobservable(l: Limits, events: Events, times: seq<int>, key: Key, now: int)
    requires Ordered(times, now) && Tail(l, Of(events, key), times, now)
    ensures Recent(l, Of(Swept(l, events, now), key), now) == Recent(l, Of(events, key), now)
    ensures Tail(l, Of(Swept(l, events, now), key), times, now)
  {
    if Expired(l, Of(events, key), now) {
      ExpiredForgotten(l, Of(events, key), times, now);
    }
  }

  /** Sweeping bounds what is remembered: over the threshold, only keys with an event in
      the window survive a check, besides the one checked; below it nothing is forgotten. */
  lemma SweepKeepsExactlyRecent(l: Limits, events: Events, key: Key, now: int, other: Key)
    requires other != key
    ensures var after := Checked(l, events, key, now).0;
            && (|events| <= 1024 ==> (other in after <==> other in events))
            && (|events| > 1024 ==>
                  (other in after <==>
                     other in events && events[other] != [] && now - events[other][|events[other]| - 1] <= l.window))
            && (other in after ==> after[other] == events[other])
  {}

  /** What pruning keeps is exactly the part of the log inside the window. */
  lemma PrunedIsWindow(l: Limits, stored: seq<int>, times: seq<int>, now: int)
    requires Ordered(times, now) && Tail(l, stored, times, now)
    ensures Tail(l, Recent(l, stored, now), times, now)
    ensures var d := |times| - |Recent(l, stored, now)|;
            forall i :: d <= i < |times| ==> now - times[i] <= l.window
  {
    RecentIsSuffix(l, stored, now);
    var kept := Recent(l, stored, now);
    var d := |times| - |kept|;
    var base := |times| - |stored|;
    assert kept == times[d..];
    forall i | 0 <= i < d
      ensures now - times[i] > l.window
    {
      if i >= base {
        assert times[i] == stored[i - base];
      }
    }
    if kept != [] {
      assert kept[0] == times[d];
      assert forall i :: d <= i < |times| ==> times[d] <= times[i];
    }
  }

  lemma WindowCount(l: Limits, stored: seq<int>, times: seq<int>, now: int)
    requires Ordered(times, now) && Tail(l, stored, times, now)
    ensures CountFrom(times, now - l.window, now) == |Recent(l, stored, now)|
  {
    PrunedIsWindow(l, stored, times, now);
    hide Recent;
    CountSplit(times, |times| - |Recent(l, stored, now)|, now - l.window, now);
  }

  lemma TailExtend(l: Limits, stored: seq<int>, times: seq<int>, now: int)
    requires Ordered(times, now) && Tail(l, stored, times, now)
    ensures Tail(l, stored + [now], times + [now], now) && Ordered(times + [now], now)
  {
    var d := |times| - |stored|;
    assert (times + [now])[d..] == times[d..] + [now];
  }

  lemma TimesExtend(log: seq<Call>, c: Call, key: Key)
    ensures Times(log + [c], key) == if key == c.key then Times(log, key) + [c.at] else Times(log, key)
  {
    assert (log + [c])[..|log|] == log;
  }

  /** The verdict on one key, and its deque afterwards. */
  lemma KeyRefines(l: Limits, events: Events, log: seq<Call>, c: Call)
    requires Ordered(Times(log, c.key), c.at) && Tail(l, Of(events, c.key), Times(log, c.key), c.at)
    ensures var after := Checked(l, events, c.key, c.at);
            && after.1 == PlainAllows(l, log, c)
            && var log' := if after.1 then log + [c] else log;
               Ordered(Times(log', c.key), c.at) && Tail(l, Of(after.0, c.key), Times(log', c.key), c.at)
  {
    hide Recent, Times, CountIn, CountFrom, Swept, Ordered, Tail;
    var times := Times(log, c.key);
    var stored := Of(Swept(l, events, c.at), c.key);
    SweepUnobservable(l, events, times, c.key, c.at);
    WindowCount(l, stored, times, c.at);
    PrunedIsWindow(l, stored, times, c.at);
    CountByKey(log, c.key, c.at - l.window, c.at);
    TimesExtend(log, c, c.key);
    TailExtend(l, Recent(l, stored, c.at), times, c.at);
  }

  lemma CheckRefines(l: Limits, events: Events, log: seq<Call>, before: int, c: Call)
    requires Refines(l, events, log, before) && before <= c.at
    ensures Checked(l, events, c.key, c.at).1 == PlainAllows(l, log, c)
    ensures Refines(l, Checked(l, events, c.key, c.at).0, if PlainAllows(l, log, c) then log + [c] else log, c.at)
  {
    hide Recent, Times, CountIn, CountFrom, Swept, Ordered, Tail, PlainAllows;
    var after := Checked(l, events, c.key, c.at).0;
    var log' := if PlainAllows(l, log, c) then log + [c] else log;
    Later(l, events, log, before, c.at);
    KeyRefines(l, events, log, c);
    forall key
      ensures Ordered(Times(log', key), c.at) && Tail(l, Of(after, key), Times(log', key), c.at)
    {
      if key != c.key {
        TimesExtend(log, c, key);
        SweepUnobservable(l, events, Times(log, key), key, c.at);
        assert Of(after, key) == Of(Swept(l, events, c.at), key);
      }
    }
  }

  lemma {:induction false} RunRefines(l: Limits, calls: seq<Call>, now: int)
    requires Monotone(calls) && forall i :: 0 <= i < |calls| ==> calls[i].at <= now
    ensures RunLimiter(l, calls).verdicts == RunPlain(l, calls).verdicts
    ensures Refines(l, RunLimiter(l, calls).state, RunPlain(l, calls).state, now)
  {
    if calls != [] {
      var n := |calls| - 1;
      RunRefines(l, calls[..n], calls[n].at);
      CheckRefines(l, RunLimiter(l, calls[..n]).state, RunPlain(l, calls[..n]).state, calls[n].at, calls[n]);
      Later(l, RunLimiter(l, calls).state, RunPlain(l, calls).state, calls[n].at, now);
    }
  }

  lemma Later(l: Limits, events: Events, log: seq<Call>, now: int, now': int)
    requires Refines(l, events, log, now) && now <= now'
    ensures Refines(l, events, log, now')
  {}

  /** Over every run with non-decreasing times, the limiter answers as the plain log
      does: an event is let through exactly when fewer than maxEvents earlier
      accepted events of its key lie within the window. */
  lemma LimiterIsPlainLog(l: Limits, calls: seq<Call>)
    requires Monotone(calls)
    ensures RunLimiter(l, calls).verdicts == RunPlain(l, calls).verdicts
  {
    RunRefines(l, calls, if calls == [] then 0 else calls[|calls| - 1].at);
  }

  /** Hence no closed window of that length, wherever it lies, ever holds more than
      maxEvents accepted events of one key. */
  lemma {:induction false} NoWindowOverfull(l: Limits, calls: seq<Call>, key: Key, from: int)
    requires Monotone(calls) && l.maxEvents >= 0
    ensures CountIn(RunPlain(l, calls).state, key, from, from + l.window) <= l.maxEvents
  {
    if calls != [] {
      var n := |calls| - 1;
      var log := RunPlain(l, calls[..n]).state;
      NoWindowOverfull(l, calls[..n], key, from);
      if PlainAllows(l, log, calls[n]) {
        assert (log + [calls[n]])[..|log|] == log;
        if calls[n].key == key && from <= calls[n].at <= from + l.window {
          AcceptedAreCalls(l, calls[..n]);
          CountShift(log, key, from, from + l.window, calls[n].at - l.window, calls[n].at);
        }
      }
    }
  }

  lemma {:induction false} AcceptedAreCalls(l: Limits, calls: seq<Call>)
    ensures forall i :: 0 <= i < |RunPlain(l, calls).state| ==> RunPlain(l, calls).state[i] in calls
  {
    if calls != [] { AcceptedAreCalls(l, calls[..|calls| - 1]); }
  }

  lemma {:induction false} CountShift(log: seq<Call>, key: Key, from: int, to: int, from': int, to': int)
    requires from' <= from && forall i :: 0 <= i < |log| ==> log[i].at <= to'
    ensures CountIn(log, key, from, to) <= CountIn(log, key, from', to')
  {
    if log != [] { CountShift(log[..|log| - 1], key, from, to, from', to'); }
  }
}
