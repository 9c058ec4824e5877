/** The sliding-window limiter, against a limiter that never forgets an accepted hit. */
module RateLimiter {
  import opened Wrappers

  type Key = string

  /** `max` hits per `windowMs`. */
  datatype Limits = Limits(max: nat, windowMs: nat)

  /** What `hits` and `lastSweep` hold. */
  datatype Limiter = Limiter(hits: map<Key, seq<int>>, lastSweep: int)

  function Times(hits: map<Key, seq<int>>, key: Key): seq<int> {
    if key in hits then hits[key] else []
  }

  /** `arr.filter(x => x > cutoff)`. */
  function Live(arr: seq<int>, cutoff: int): seq<int> {
    if |arr| == 0 then []
    else if arr[0] > cutoff then [arr[0]] + Live(arr[1..], cutoff)
    else Live(arr[1..], cutoff)
  }

  function LastTime(arr: seq<int>): int {
    if |arr| == 0 then 0 else arr[|arr| - 1]
  }

  function Swept(hits: map<Key, seq<int>>, cutoff: int): map<Key, seq<int>> {
    map k | k in hits && LastTime(hits[k]) > cutoff :: hits[k]
  }

  /** `Math.ceil(ms / 1000)`. */
  function CeilSeconds(ms: int): (s: int)
    ensures 1000 * (s - 1) < ms <= 1000 * s
  {
    -((-ms) / 1000)
  }

  function RetryAfter(u: Limits, live: seq<int>, t: int): int {
    var s := CeilSeconds((if |live| == 0 then t else live[0]) + u.windowMs - t);
    if s < 1 then 1 else s
  }

  /** The lazy sweep, at most once per window. */
  function Sweep(u: Limits, s: Limiter, t: int): Limiter {
    if t - s.lastSweep >= u.windowMs then Limiter(Swept(s.hits, t - u.windowMs), t) else s
  }

  /** One hit at time `t`: the new state, and the retry-after seconds when the hit is rejected. */
  function Hit(u: Limits, s: Limiter, t: int, key: Key): (Limiter, Option<int>) {
    var swept := Sweep(u, s, t);
    var arr := Live(Times(swept.hits, key), t - u.windowMs);
    if |arr| >= u.max then (swept.(hits := swept.hits[key := arr]), Some(RetryAfter(u, arr, t)))
    else (swept.(hits := swept.hits[key := arr + [t]]), None)
  }

  /** The reference: every accepted timestamp is kept. */
  function KeepAll(u: Limits, accepted: map<Key, seq<int>>, t: int, key: Key): (map<Key, seq<int>>, Option<int>) {
    var live := Live(Times(accepted, key), t - u.windowMs);
    if |live| >= u.max then (accepted, Some(RetryAfter(u, live, t)))
    else (accepted[key := Times(accepted, key) + [t]], None)
  }

  // ----- filtering

  lemma {:induction false} LiveConcat(a: seq<int>, b: seq<int>, cutoff: int)
    ensures Live(a + b, cutoff) == Live(a, cutoff) + Live(b, cutoff)
  {
    if |a| == 0 {
      assert a + b == b;
    } else {
      assert (a + b)[1..] == a[1..] + b;
      LiveConcat(a[1..], b, cutoff);
    }
  }

  lemma {:induction false} LiveLive(a: seq<int>, c: int, d: int)
    requires c <= d
    ensures Live(Live(a, c), d) == Live(a, d)
  {
    if |a| > 0 {
      LiveLive(a[1..], c, d);
      LiveConcat(Live([a[0]], c), Live(a[1..], c), d);
      assert [a[0]][1..] == [];
      assert Live(a, c) == Live([a[0]], c) + Live(a[1..], c);
    }
  }

  lemma {:induction false} LiveNone(a: seq<int>, cutoff: int)
    requires forall i :: 0 <= i < |a| ==> a[i] <= cutoff
    ensures Live(a, cutoff) == []
  {
    if |a| > 0 {
      LiveNone(a[1..], cutoff);
    }
  }

  lemma {:induction false} LiveMonotone(a: seq<int>, c: int, d: int)
    requires c <= d
    ensures |Live(a, d)| <= |Live(a, c)|
  {
    if |a| > 0 {
      LiveMonotone(a[1..], c, d);
    }
  }

  lemma LiveLast(a: seq<int>, cutoff: int)
    requires |a| > 0
    ensures Live(a, cutoff) == Live(a[..|a| - 1], cutoff) + (if a[|a| - 1] > cutoff then [a[|a| - 1]] else [])
  {
    assert a == a[..|a| - 1] + [a[|a| - 1]];
    LiveConcat(a[..|a| - 1], [a[|a| - 1]], cutoff);
    assert [a[|a| - 1]][1..] == [];
  }

  // ----- the sweep and the pruning change no decision

  predicate Sorted(a: seq<int>) {
    forall i, j :: 0 <= i < j < |a| ==> a[i] <= a[j]
  }

  /** Seen with any cutoff from `c` on, the two hold the same hits of `key`; nothing accepted lies after `now`. */
  ghost predicate Agree(u: Limits, s: Limiter, accepted: map<Key, seq<int>>, now: int, key: Key) {
    && Live(Times(s.hits, key), now - u.windowMs) == Live(Times(accepted, key), now - u.windowMs)
    && Sorted(Times(s.hits, key)) && Sorted(Times(accepted, key))
    && (forall i :: 0 <= i < |Times(s.hits, key)| ==> Times(s.hits, key)[i] <= now)
    && (forall i :: 0 <= i < |Times(accepted, key)| ==> Times(accepted, key)[i] <= now)
  }

  ghost predicate AgreeAll(u: Limits, s: Limiter, accepted: map<Key, seq<int>>, now: int) {
    forall key :: Agree(u, s, accepted, now, key)
  }

  lemma {:induction false} LiveSorted(a: seq<int>, cutoff: int)
    requires Sorted(a)
    ensures Sorted(Live(a, cutoff))
    ensures forall x :: x in Live(a, cutoff) ==> x in a && x > cutoff
  {
    if |a| > 0 {
      var tail := a[1..];
      LiveSorted(tail, cutoff);
      var rest := Live(tail, cutoff);
      forall x | x in tail ensures x in a && a[0] <= x {
        var k :| 0 <= k < |tail| && tail[k] == x;
        assert a[k + 1] == x;
      }
      forall j | 0 <= j < |rest| ensures a[0] <= rest[j] {
        assert rest[j] in rest;
      }
    }
  }

  /** Time passes: what agreed still agrees. */
  lemma AgreeLater(u: Limits, s: Limiter, accepted: map<Key, seq<int>>, now: int, t: int, key: Key)
    requires Agree(u, s, accepted, now, key) && now <= t
    ensures Agree(u, s, accepted, t, key)
  {
    LiveLive(Times(s.hits, key), now - u.windowMs, t - u.windowMs);
    LiveLive(Times(accepted, key), now - u.windowMs, t - u.windowMs);
  }

  lemma SweepAgrees(u: Limits, s: Limiter, accepted: map<Key, seq<int>>, t: int, key: Key)
    requires Agree(u, s, accepted, t, key)
    ensures Agree(u, Limiter(Swept(s.hits, t - u.windowMs), t), accepted, t, key)
  {
    if key in s.hits && LastTime(s.hits[key]) <= t - u.windowMs {
      LiveNone(s.hits[key], t - u.windowMs);
    }
  }

  lemma SnocSorted(a: seq<int>, t: int)
    requires Sorted(a) && forall i :: 0 <= i < |a| ==> a[i] <= t
    ensures Sorted(a + [t])
  {
  }

  lemma AllAgreeAfterSweep(u: Limits, s: Limiter, accepted: map<Key, seq<int>>, now: int, t: int)
    requires AgreeAll(u, s, accepted, now) && now <= t
    ensures AgreeAll(u, Sweep(u, s, t), accepted, t)
  {
    forall k ensures Agree(u, Sweep(u, s, t), accepted, t, k) {
      assert Agree(u, s, accepted, now, k);
      AgreeLater(u, s, accepted, now, t, k);
      SweepAgrees(u, s, accepted, t, k);
    }
  }

  lemma HitAgrees(u: Limits, s: Limiter, accepted: map<Key, seq<int>>, now: int, t: int, key: Key)
    requires AgreeAll(u, s, accepted, now) && now <= t
    ensures Hit(u, s, t, key).1 == KeepAll(u, accepted, t, key).1
    ensures AgreeAll(u, Hit(u, s, t, key).0, KeepAll(u, accepted, t, key).0, t)
  {
    var swept := Sweep(u, s, t);
    AllAgreeAfterSweep(u, s, accepted, now, t);
    assert Agree(u, swept, accepted, t, key);
    OwnKeyAgrees(u, swept, accepted, t, key);
    var s', accepted' := Hit(u, s, t, key).0, KeepAll(u, accepted, t, key).0;
    forall k ensures Agree(u, s', accepted', t, k) {
      if k != key {
        assert Agree(u, swept, accepted, t, k);
        OtherKeyAgrees(u, swept, accepted, s', accepted', t, k);
      }
    }
  }

  lemma OtherKeyAgrees(u: Limits, s: Limiter, accepted: map<Key, seq<int>>, s': Limiter, accepted': map<Key, seq<int>>, t: int, k: Key)
    requires Agree(u, s, accepted, t, k) && Times(s'.hits, k) == Times(s.hits, k) && Times(accepted', k) == Times(accepted, k)
    ensures Agree(u, s', accepted', t, k)
  {
  }

  lemma OwnKeyAgrees(u: Limits, swept: Limiter, accepted: map<Key, seq<int>>, t: int, key: Key)
    requires Agree(u, swept, accepted, t, key)
    ensures var arr := Live(Times(swept.hits, key), t - u.windowMs);
      && Agree(u, swept.(hits := swept.hits[key := arr]), accepted, t, key)
      && Agree(u, swept.(hits := swept.hits[key := arr + [t]]), accepted[key := Times(accepted, key) + [t]], t, key)
  {
    var arr := Live(Times(swept.hits, key), t - u.windowMs);
    PrunedAgrees(u, swept, accepted, t, key);
    var pruned := swept.(hits := swept.hits[key := arr]);
    PushAgrees(u, pruned, accepted, t, key);
    assert pruned.hits[key := arr + [t]] == swept.hits[key := arr + [t]];
  }

  lemma PrunedAgrees(u: Limits, s: Limiter, accepted: map<Key, seq<int>>, t: int, key: Key)
    requires Agree(u, s, accepted, t, key)
    ensures Agree(u, s.(hits := s.hits[key := Live(Times(s.hits, key), t - u.windowMs)]), accepted, t, key)
  {
    var cutoff, times := t - u.windowMs, Times(s.hits, key);
    LiveLive(times, cutoff, cutoff);
    LiveSorted(times, cutoff);
    forall i | 0 <= i < |Live(times, cutoff)| ensures Live(times, cutoff)[i] <= t {
      assert Live(times, cutoff)[i] in times;
    }
  }

  lemma PushAgrees(u: Limits, s: Limiter, accepted: map<Key, seq<int>>, t: int, key: Key)
    requires Agree(u, s, accepted, t, key)
    ensures Agree(u, s.(hits := s.hits[key := Times(s.hits, key) + [t]]), accepted[key := Times(accepted, key) + [t]], t, key)
  {
    SnocSorted(Times(s.hits, key), t);
    SnocSorted(Times(accepted, key), t);
    LiveConcat(Times(s.hits, key), [t], t - u.windowMs);
    LiveConcat(Times(accepted, key), [t], t - u.windowMs);
  }

  /** A run of hits: the clock reading and the key of each. */
  type Hits = seq<(int, Key)>

  predicate ClockRuns(start: int, hs: Hits) {
    |hs| == 0 || (hs[|hs| - 1].0 >= (if |hs| == 1 then start else hs[|hs| - 2].0) && ClockRuns(start, hs[..|hs| - 1]))
  }

  function Now(start: int, hs: Hits): int {
    if |hs| == 0 then start else hs[|hs| - 1].0
  }

  function RunLimiter(u: Limits, start: int, hs: Hits): (Limiter, seq<Option<int>>) {
    if |hs| == 0 then (Limiter(map[], start), [])
    else
      var (s, out) := RunLimiter(u, start, hs[..|hs| - 1]);
      var (s', r) := Hit(u, s, hs[|hs| - 1].0, hs[|hs| - 1].1);
      (s', out + [r])
  }

  function RunKeepAll(u: Limits, hs: Hits): (map<Key, seq<int>>, seq<Option<int>>) {
    if |hs| == 0 then (map[], [])
    else
      var (a, out) := RunKeepAll(u, hs[..|hs| - 1]);
      var (a', r) := KeepAll(u, a, hs[|hs| - 1].0, hs[|hs| - 1].1);
      (a', out + [r])
  }

  /** Over any run with a clock that never goes back, every answer is that of the limiter that forgets nothing. */
  lemma {:induction false} ForgettingIsInvisible(u: Limits, start: int, hs: Hits)
    requires ClockRuns(start, hs)
    ensures RunLimiter(u, start, hs).1 == RunKeepAll(u, hs).1
    ensures AgreeAll(u, RunLimiter(u, start, hs).0, RunKeepAll(u, hs).0, Now(start, hs))
  {
    if |hs| > 0 {
      var init := hs[..|hs| - 1];
      ForgettingIsInvisible(u, start, init);
      HitAgrees(u, RunLimiter(u, start, init).0, RunKeepAll(u, init).0, Now(start, init), hs[|hs| - 1].0, hs[|hs| - 1].1);
    }
  }

  // ----- the window

  /** How many of the times lie in the window (a, a + w]. */
  function CountIn(times: seq<int>, a: int, w: nat): nat {
    if |times| == 0 then 0
    else CountIn(times[..|times| - 1], a, w) + (if a < times[|times| - 1] <= a + w then 1 else 0)
  }

  /** Each of these hits was accepted with room in its own window. */
  ghost predicate AcceptedOk(u: Limits, times: seq<int>) {
    forall j :: 0 <= j < |times| ==> |Live(times[..j], times[j] - u.windowMs)| < u.max
  }

  lemma {:induction false} CountAtMostLive(times: seq<int>, a: int, w: nat, cutoff: int)
    requires cutoff <= a
    ensures CountIn(times, a, w) <= |Live(times, cutoff)|
  {
    if |times| > 0 {
      CountAtMostLive(times[..|times| - 1], a, w, cutoff);
      LiveLast(times, cutoff);
    }
  }

  lemma {:induction false} WindowHoldsAtMostMax(u: Limits, times: seq<int>, a: int)
    requires AcceptedOk(u, times)
    ensures CountIn(times, a, u.windowMs) <= u.max
  {
    if |times| > 0 {
      var init, last := times[..|times| - 1], times[|times| - 1];
      forall j | 0 <= j < |init| ensures |Live(init[..j], init[j] - u.windowMs)| < u.max {
        assert init[..j] == times[..j];
      }
      if a < last <= a + u.windowMs {
        CountAtMostLive(init, a, u.windowMs, last - u.windowMs);
      } else {
        WindowHoldsAtMostMax(u, init, a);
      }
    }
  }

  lemma AcceptOneMore(u: Limits, times: seq<int>, t: int)
    requires AcceptedOk(u, times) && |Live(times, t - u.windowMs)| < u.max
    ensures AcceptedOk(u, times + [t])
  {
    var after := times + [t];
    forall j | 0 <= j < |after| ensures |Live(after[..j], after[j] - u.windowMs)| < u.max {
      assert after[..j] == times[..j];
      assert times[..|times|] == times;
    }
  }

  lemma {:induction false} RunAcceptsWithRoom(u: Limits, hs: Hits, key: Key)
    ensures AcceptedOk(u, Times(RunKeepAll(u, hs).0, key))
  {
    if |hs| > 0 {
      RunAcceptsWithRoom(u, hs[..|hs| - 1], key);
      var a, t := RunKeepAll(u, hs[..|hs| - 1]).0, hs[|hs| - 1].0;
      if |Live(Times(a, key), t - u.windowMs)| < u.max {
        AcceptOneMore(u, Times(a, key), t);
      }
    }
  }

  /** The times at which the real limiter accepted hits of `key`. */
  function AcceptedTimes(u: Limits, start: int, hs: Hits, key: Key): seq<int> {
    if |hs| == 0 then []
    else
      var init, out := hs[..|hs| - 1], RunLimiter(u, start, hs).1;
      AcceptedTimes(u, start, init, key) + (if hs[|hs| - 1].1 == key && out[|out| - 1].None? then [hs[|hs| - 1].0] else [])
  }

  lemma {:induction false} AcceptedTimesAreKept(u: Limits, start: int, hs: Hits, key: Key)
    requires ClockRuns(start, hs)
    ensures AcceptedTimes(u, start, hs, key) == Times(RunKeepAll(u, hs).0, key)
  {
    if |hs| > 0 {
      AcceptedTimesAreKept(u, start, hs[..|hs| - 1], key);
      ForgettingIsInvisible(u, start, hs);
    }
  }

  /** No window of length `windowMs`, wherever it starts, holds more than `max` accepted hits of a key. */
  lemma NoWindowExceedsMax(u: Limits, start: int, hs: Hits, key: Key, a: int)
    requires ClockRuns(start, hs)
    ensures CountIn(AcceptedTimes(u, start, hs, key), a, u.windowMs) <= u.max
  {
    AcceptedTimesAreKept(u, start, hs, key);
    RunAcceptsWithRoom(u, hs, key);
    WindowHoldsAtMostMax(u, AcceptedTimes(u, start, hs, key), a);
  }

  /** A hit gets in exactly when fewer than `max` hits of its key were accepted in the window that ends with it. */
  lemma AcceptedIffRoom(u: Limits, start: int, hs: Hits, t: int, key: Key)
    requires ClockRuns(start, hs) && Now(start, hs) <= t
    ensures Hit(u, RunLimiter(u, start, hs).0, t, key).1.None?
       <==> CountIn(AcceptedTimes(u, start, hs, key), t - u.windowMs, u.windowMs) < u.max
  {
    AnswersAsKept(u, start, hs, t, key);
    AnswerIffRoom(u, AcceptedTimes(u, start, hs, key), t);
  }

  lemma AnswerIffRoom(u: Limits, times: seq<int>, t: int)
    requires forall i :: 0 <= i < |times| ==> times[i] <= t
    ensures Answer(u, times, t).None? <==> CountIn(times, t - u.windowMs, u.windowMs) < u.max
  {
    CountIsLive(times, t - u.windowMs, u.windowMs);
  }

  lemma {:induction false} CountIsLive(times: seq<int>, a: int, w: nat)
    requires forall i :: 0 <= i < |times| ==> times[i] <= a + w
    ensures CountIn(times, a, w) == |Live(times, a)|
  {
    if |times| > 0 {
      CountIsLive(times[..|times| - 1], a, w);
      LiveLast(times, a);
    }
  }

  // ----- retry-after

  lemma {:induction false} LiveIsSuffix(a: seq<int>, cutoff: int)
    requires Sorted(a)
    ensures |Live(a, cutoff)| <= |a| && Live(a, cutoff) == a[|a| - |Live(a, cutoff)|..]
  {
    if |a| > 0 {
      LiveIsSuffix(a[1..], cutoff);
      if a[0] > cutoff {
        AllLive(a[1..], cutoff);
        assert a == [a[0]] + a[1..];
      }
    }
  }

  lemma {:induction false} AllLive(a: seq<int>, cutoff: int)
    requires forall i :: 0 <= i < |a| ==> a[i] > cutoff
    ensures Live(a, cutoff) == a
  {
    if |a| > 0 {
      AllLive(a[1..], cutoff);
    }
  }

  /** Never more than `max` hits are live. */
  lemma LiveAtMostMax(u: Limits, times: seq<int>, t: int)
    requires Sorted(times) && AcceptedOk(u, times) && forall i :: 0 <= i < |times| ==> times[i] <= t
    ensures |Live(times, t - u.windowMs)| <= u.max
  {
    if |times| > 0 {
      var init, last := times[..|times| - 1], times[|times| - 1];
      LiveLast(times, t - u.windowMs);
      LiveMonotone(init, last - u.windowMs, t - u.windowMs);
    }
  }

  /** At a full window, the next hit gets in exactly when the oldest live one has left the window. */
  lemma FullUntilOldestLeaves(u: Limits, times: seq<int>, t: int, t': int)
    requires u.max >= 1 && Sorted(times) && AcceptedOk(u, times) && forall i :: 0 <= i < |times| ==> times[i] <= t
    requires |Live(times, t - u.windowMs)| >= u.max && t <= t'
    ensures |Live(times, t' - u.windowMs)| < u.max <==> t' >= Live(times, t - u.windowMs)[0] + u.windowMs
  {
    var live := Live(times, t - u.windowMs);
    LiveAtMostMax(u, times, t);
    LiveLive(times, t - u.windowMs, t' - u.windowMs);
    LiveSorted(times, t - u.windowMs);
    if live[0] > t' - u.windowMs {
      AllLive(live, t' - u.windowMs);
    } else {
      LiveShorter(live[1..], t' - u.windowMs);
    }
  }

  lemma {:induction false} LiveShorter(a: seq<int>, cutoff: int)
    ensures |Live(a, cutoff)| <= |a|
  {
    if |a| > 0 {
      LiveShorter(a[1..], cutoff);
    }
  }

  /** Between the two hits, the limiter accepts none of `key`. */
  ghost predicate NoneAccepted(u: Limits, start: int, hs: Hits, more: Hits, key: Key) {
    AcceptedTimes(u, start, hs + more, key) == AcceptedTimes(u, start, hs, key)
  }

  /**
   A rejected key that stays away for the returned seconds gets in: after the rejection, and any hits in between none
   of which the limiter accepted for this key, a hit at least that many seconds later is accepted.
   */
  lemma WaitingRetryAfterGetsIn(u: Limits, start: int, hs: Hits, t: int, key: Key, more: Hits, t': int)
    requires u.max >= 1
    requires ClockRuns(start, hs + [(t, key)] + more + [(t', key)])
    requires Hit(u, RunLimiter(u, start, hs).0, t, key).1.Some?
    requires NoneAccepted(u, start, hs, [(t, key)] + more, key)
    requires t' >= t + 1000 * Hit(u, RunLimiter(u, start, hs).0, t, key).1.value
    ensures Hit(u, RunLimiter(u, start, hs + [(t, key)] + more).0, t', key).1.None?
  {
    HitAgain(u, start, hs, t, key, more, t');
    LaterIsAccepted(u, AcceptedTimes(u, start, hs, key), t, t');
  }

  lemma LaterIsAccepted(u: Limits, times: seq<int>, t: int, t': int)
    requires u.max >= 1 && t <= t' && Sorted(times) && AcceptedOk(u, times) && forall i :: 0 <= i < |times| ==> times[i] <= t
    requires Answer(u, times, t).Some? && t' >= t + 1000 * Answer(u, times, t).value
    ensures Answer(u, times, t').None?
  {
    FullUntilOldestLeaves(u, times, t, t');
  }

  /**
   And no shorter wait does: a hit of the key less than a second earlier than that, or before, is rejected like the first,
   as long as none of the key is accepted in between. So the answer is the least number of whole seconds that works.
   */
  lemma RetryAfterIsLeast(u: Limits, start: int, hs: Hits, t: int, key: Key, more: Hits, t': int)
    requires ClockRuns(start, hs + [(t, key)] + more + [(t', key)])
    requires Hit(u, RunLimiter(u, start, hs).0, t, key).1.Some?
    requires NoneAccepted(u, start, hs, [(t, key)] + more, key)
    ensures var s := Hit(u, RunLimiter(u, start, hs).0, t, key).1.value;
      && s >= 1
      && (t' <= t + 1000 * (s - 1) ==> Hit(u, RunLimiter(u, start, hs + [(t, key)] + more).0, t', key).1.Some?)
  {
    var mid := hs + [(t, key)] + more;
    assert mid == hs + ([(t, key)] + more);
    HitAgain(u, start, hs, t, key, more, t');
    if t' <= t + 1000 * (Answer(u, AcceptedTimes(u, start, hs, key), t).value - 1) {
      EarlierIsRejected(u, AcceptedTimes(u, start, hs, key), t, t');
    }
  }

  lemma EarlierIsRejected(u: Limits, times: seq<int>, t: int, t': int)
    requires t <= t' && Sorted(times) && AcceptedOk(u, times) && forall i :: 0 <= i < |times| ==> times[i] <= t
    requires Answer(u, times, t).Some? && t' <= t + 1000 * (Answer(u, times, t).value - 1)
    ensures Answer(u, times, t').Some?
  {
    if u.max >= 1 {
      FullUntilOldestLeaves(u, times, t, t');
      LiveSorted(times, t - u.windowMs);
    }
  }

  /** Both hits are answered from the same accepted times. */
  lemma HitAgain(u: Limits, start: int, hs: Hits, t: int, key: Key, more: Hits, t': int)
    requires ClockRuns(start, hs + [(t, key)] + more + [(t', key)])
    requires NoneAccepted(u, start, hs, [(t, key)] + more, key)
    ensures var times, mid := AcceptedTimes(u, start, hs, key), hs + [(t, key)] + more;
      && t <= t' && Sorted(times) && AcceptedOk(u, times) && (forall i :: 0 <= i < |times| ==> times[i] <= t)
      && Hit(u, RunLimiter(u, start, hs).0, t, key).1 == Answer(u, times, t)
      && Hit(u, RunLimiter(u, start, mid).0, t', key).1 == Answer(u, times, t')
  {
    var mid := hs + [(t, key)] + more;
    assert mid == hs + ([(t, key)] + more);
    ClockRunsAppended(start, mid, (t', key));
    ClockRunsPrefix(start, mid, |hs| + 1);
    assert mid[..|hs| + 1] == hs + [(t, key)];
    ClockRunsAppended(start, hs, (t, key));
    AnswersAsKept(u, start, hs, t, key);
    AnswersAsKept(u, start, mid, t', key);
    ClockNow(start, hs + [(t, key)], more);
    RunAcceptsWithRoom(u, hs, key);
  }

  /** What a hit at `t` is answered when these are all the accepted times of its key. */
  function Answer(u: Limits, times: seq<int>, t: int): Option<int> {
    var live := Live(times, t - u.windowMs);
    if |live| >= u.max then Some(RetryAfter(u, live, t)) else None
  }

  lemma ClockRunsAppended(start: int, hs: Hits, h: (int, Key))
    requires ClockRuns(start, hs + [h])
    ensures ClockRuns(start, hs) && Now(start, hs) <= h.0
  {
    assert (hs + [h])[..|hs|] == hs;
  }

  lemma {:induction false} ClockNow(start: int, hs: Hits, more: Hits)
    requires ClockRuns(start, hs + more)
    ensures Now(start, hs) <= Now(start, hs + more)
    decreases |more|
  {
    if |more| == 0 {
      assert hs + more == hs;
    } else {
      var init := more[..|more| - 1];
      assert hs + more == (hs + init) + [more[|more| - 1]];
      ClockRunsAppended(start, hs + init, more[|more| - 1]);
      ClockNow(start, hs, init);
    }
  }

  /** The limiter's next answer for a key, from the times it has accepted. */
  lemma AnswersAsKept(u: Limits, start: int, hs: Hits, t: int, key: Key)
    requires ClockRuns(start, hs) && Now(start, hs) <= t
    ensures var times := AcceptedTimes(u, start, hs, key);
      && times == Times(RunKeepAll(u, hs).0, key)
      && Sorted(times) && (forall i :: 0 <= i < |times| ==> times[i] <= t)
      && Hit(u, RunLimiter(u, start, hs).0, t, key).1 == Answer(u, times, t)
  {
    ForgettingIsInvisible(u, start, hs);
    AcceptedTimesAreKept(u, start, hs, key);
    HitAgrees(u, RunLimiter(u, start, hs).0, RunKeepAll(u, hs).0, Now(start, hs), t, key);
    assert Agree(u, RunLimiter(u, start, hs).0, RunKeepAll(u, hs).0, Now(start, hs), key);
  }

  lemma {:induction false} ClockRunsPrefix(start: int, hs: Hits, n: nat)
    requires ClockRuns(start, hs) && n <= |hs|
    ensures ClockRuns(start, hs[..n])
  {
    if n == |hs| {
      assert hs[..n] == hs;
    } else {
      assert hs[..|hs| - 1][..n] == hs[..n];
      ClockRunsPrefix(start, hs[..|hs| - 1], n);
    }
  }

  // ----- memory

  /** The time is that of a hit of the key. */
  ghost predicate WasHit(hs: Hits, key: Key, x: int) {
    exists i :: 0 <= i < |hs| && hs[i] == (x, key)
  }

  /** What is kept of a key are times of its hits, the last of them less than a window older than the last sweep. */
  ghost predicate KeptOk(u: Limits, s: Limiter, hs: Hits, key: Key) {
    key in s.hits ==>
      && s.hits[key] != [] && LastTime(s.hits[key]) > s.lastSweep - u.windowMs
      && forall x :: x in s.hits[key] ==> WasHit(hs, key, x)
  }

  lemma {:induction false} LiveMembers(a: seq<int>, cutoff: int)
    ensures forall x :: x in Live(a, cutoff) ==> x in a && x > cutoff
  {
    if |a| > 0 {
      LiveMembers(a[1..], cutoff);
    }
  }

  lemma SweepKept(u: Limits, s: Limiter, hs: Hits, t: int, key: Key)
    requires KeptOk(u, s, hs, key)
    ensures KeptOk(u, Sweep(u, s, t), hs, key)
  {
  }

  lemma HitsGrow(hs: Hits, h: (int, Key), key: Key, x: int)
    requires WasHit(hs, key, x)
    ensures WasHit(hs + [h], key, x)
  {
    var i :| 0 <= i < |hs| && hs[i] == (x, key);
    assert (hs + [h])[i] == (x, key);
  }

  lemma HitKept(u: Limits, s: Limiter, hs: Hits, t: int, own: Key, key: Key)
    requires u.max >= 1 && u.windowMs >= 1 && s.lastSweep <= t && KeptOk(u, s, hs, key)
    ensures KeptOk(u, Hit(u, s, t, own).0, hs + [(t, own)], key)
  {
    var swept := Sweep(u, s, t);
    SweepKept(u, s, hs, t, key);
    var arr := Live(Times(swept.hits, own), t - u.windowMs);
    LiveMembers(Times(swept.hits, own), t - u.windowMs);
    var s' := Hit(u, s, t, own).0;
    if key in s'.hits {
      assert (hs + [(t, own)])[|hs|] == (t, own);
      forall x | x in s'.hits[key] ensures WasHit(hs + [(t, own)], key, x) {
        if key in swept.hits && x in swept.hits[key] {
          HitsGrow(hs, (t, own), key, x);
        }
      }
      if key == own && |arr| >= u.max {
        assert arr[|arr| - 1] in arr;
      }
    }
  }

  lemma {:induction false} RunKept(u: Limits, start: int, hs: Hits, key: Key)
    requires u.max >= 1 && u.windowMs >= 1 && ClockRuns(start, hs)
    ensures var s := RunLimiter(u, start, hs).0;
      KeptOk(u, s, hs, key) && s.lastSweep <= Now(start, hs) < s.lastSweep + u.windowMs
  {
    if |hs| > 0 {
      var init, h := hs[..|hs| - 1], hs[|hs| - 1];
      RunKept(u, start, init, key);
      HitKept(u, RunLimiter(u, start, init).0, init, h.0, h.1, key);
      assert init + [h] == hs;
    }
  }

  /** However many keys come and go, only those hit within the last two windows are held in memory. */
  lemma OnlyRecentKeysAreHeld(u: Limits, start: int, hs: Hits, key: Key)
    requires u.max >= 1 && u.windowMs >= 1 && ClockRuns(start, hs) && key in RunLimiter(u, start, hs).0.hits
    ensures exists i :: 0 <= i < |hs| && hs[i].1 == key && hs[i].0 > Now(start, hs) - 2 * u.windowMs
  {
    RunKept(u, start, hs, key);
    var times := RunLimiter(u, start, hs).0.hits[key];
    assert times[|times| - 1] in times;
    var i :| 0 <= i < |hs| && hs[i] == (times[|times| - 1], key);
  }

  // ----- the limiter object

  class RateLimiter {
    const limits: Limits
    var hits: map<Key, seq<int>>
    var lastSweep: int

    function AsLimiter(): Limiter
      reads this
    {
      Limiter(hits, lastSweep)
    }

    constructor (limits: Limits, now: int)
      ensures this.limits == limits && AsLimiter() == Limiter(map[], now)
    {
      this.limits, hits, lastSweep := limits, map[], now;
    }

    method HitNow(t: int, key: Key) returns (retryAfter: Option<int>)
      modifies this
      ensures (AsLimiter(), retryAfter) == Hit(limits, old(AsLimiter()), t, key)
    {
      var cutoff := t - limits.windowMs;
      if t - lastSweep >= limits.windowMs {
        lastSweep := t;
        var todo := hits.Keys;
        while todo != {}
          invariant todo <= old(hits).Keys && lastSweep == t
          invariant hits == map k | k in old(hits) && (k in todo || LastTime(old(hits)[k]) > cutoff) :: old(hits)[k]
          decreases todo
        {
          var k :| k in todo;
          if LastTime(hits[k]) <= cutoff {
            hits := hits - {k};
          }
          todo := todo - {k};
        }
        assert hits == Swept(old(hits), cutoff);
      }
      assert AsLimiter() == Sweep(limits, old(AsLimiter()), t);
      var arr := Live(Times(hits, key), cutoff);
      if |arr| >= limits.max {
        hits := hits[key := arr];
        return Some(RetryAfter(limits, arr, t));
      }
      hits := hits[key := arr + [t]];
      return None;
    }
  }
}
