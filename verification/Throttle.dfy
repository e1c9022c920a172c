/**
 The in-memory fixed-window throttle, and what it really bounds: hits per stored window, hits
 in any stretch of time, and nothing across keys.
 */
module Throttle {
  import opened Wrappers

  datatype Limit = Limit(max: nat, window: nat)

  /** When the window opened, and the hits accepted in it. */
  datatype Window = Window(start: nat, count: nat)

  type Table = map<string, Window>

  datatype Call = Call(key: string, now: nat)

  /** `saturating_sub` */
  function Sub(a: nat, b: nat): (d: nat) {
    if a < b then 0 else a - b
  }

  function Lookup(t: Table, key: string): (w: Option<Window>) {
    if key in t then Some(t[key]) else None
  }

  /** One hit on one key's window: a stale window restarts, a full one refuses. */
  function HitWindow(w: Option<Window>, l: Limit, now: nat): (r: (Window, bool)) {
    var open := if w.Some? && Sub(now, w.value.start) < l.window then w.value else Window(now, 0);
    if open.count >= l.max then (open, false) else (open.(count := open.count + 1), true)
  }

  class FixedWindows {
    var inner: Table

    constructor ()
      ensures inner == map[]
    {
      inner := map[];
    }

    /** Record a hit at `now`; false when the key is over budget. */
    method Allow(key: string, max: nat, windowSecs: nat, now: nat) returns (ok: bool)
      modifies this
      ensures var (w, allowed) := HitWindow(Lookup(old(inner), key), Limit(max, windowSecs), now);
              inner == old(inner)[key := w] && ok == allowed
    {
      if key in inner {
        if Sub(now, inner[key].start) >= windowSecs { inner := inner[key := Window(now, 0)]; }
      } else {
        inner := inner[key := Window(now, 0)];
      }
      if inner[key].count >= max { return false; }
      inner := inner[key := inner[key].(count := inner[key].count + 1)];
      ok := true;
    }
  }

  /** ONE HIT: while the window last opened still runs, counted there if there is room; otherwise the first of a new
      window, or refused where nothing is allowed. */
  lemma HitIs(w: Option<Window>, l: Limit, now: nat)
    ensures var (w', ok) := HitWindow(w, l, now);
            if w.Some? && l.window > 0 && now < w.value.start + l.window then
              w'.start == w.value.start && (ok <==> w.value.count < l.max)
              && w'.count == (if ok then w.value.count + 1 else w.value.count)
            else w'.start == now && (ok <==> l.max > 0) && w'.count == (if ok then 1 else 0)
  {
  }

  // ── one key over time ──

  ghost predicate NonDecreasing(times: seq<nat>) {
    forall i, j :: 0 <= i < j < |times| ==> times[i] <= times[j]
  }

  ghost predicate NotBefore(times: seq<nat>, from: nat) {
    forall i :: 0 <= i < |times| ==> from <= times[i]
  }

  function KeyDecisions(w: Option<Window>, l: Limit, times: seq<nat>): (d: seq<bool>)
    ensures |d| == |times|
    decreases |times|
  {
    if times == [] then []
    else
      var (w', ok) := HitWindow(w, l, times[0]);
      [ok] + KeyDecisions(Some(w'), l, times[1..])
  }

  function KeyFinal(w: Option<Window>, l: Limit, times: seq<nat>): (r: Option<Window>)
    decreases |times|
  {
    if times == [] then w else KeyFinal(Some(HitWindow(w, l, times[0]).0), l, times[1..])
  }

  /** Accepted hits with from <= time < from + width. */
  function Accepts(times: seq<nat>, decisions: seq<bool>, from: nat, width: nat): (n: nat)
    requires |times| == |decisions|
  {
    if times == [] then 0
    else Accepts(times[1..], decisions[1..], from, width) + if decisions[0] && from <= times[0] < from + width then 1
        else 0
  }

  lemma Tail(times: seq<nat>)
    requires NonDecreasing(times) && times != []
    ensures NonDecreasing(times[1..]) && NotBefore(times[1..], times[0])
  {
    var rest := times[1..];
    forall i, j | 0 <= i < j < |rest| ensures rest[i] <= rest[j] {
      assert rest[i] == times[i + 1] && rest[j] == times[j + 1];
    }
    forall i | 0 <= i < |rest| ensures times[0] <= rest[i] { assert rest[i] == times[i + 1]; }
  }

  lemma {:induction false} NoneOutside(times: seq<nat>, decisions: seq<bool>, from: nat, width: nat)
    requires |times| == |decisions| && NotBefore(times, from + width)
    ensures Accepts(times, decisions, from, width) == 0
  {
    if times != [] {
      NoneOutside(times[1..], decisions[1..], from, width);
    }
  }

  /** Once the clock has reached `from`: the room left in the open window, and one window
      more if that one opened before. */
  lemma {:induction false} RoomLeft(w: Window, l: Limit, times: seq<nat>, from: nat)
    requires NonDecreasing(times) && NotBefore(times, w.start) && NotBefore(times, from) && w.count <= l.max
    ensures Accepts(times, KeyDecisions(Some(w), l, times), from, l.window)
         <= if w.start >= from then l.max - w.count else 2 * l.max - w.count
    decreases |times|
  {
    if times != [] {
      Tail(times);
      var now := times[0];
      var w' := HitWindow(Some(w), l, now).0;
      if w.start >= from && now - w.start >= l.window {
        NoneOutside(times[1..], KeyDecisions(Some(w), l, times)[1..], from, l.window);
      } else {
        RoomLeft(w', l, times[1..], from);
      }
    }
  }

  lemma {:induction false} AcceptsFromWindow(w: Window, l: Limit, times: seq<nat>, from: nat)
    requires NonDecreasing(times) && NotBefore(times, w.start) && w.start < from && 1 <= w.count <= l.max
    ensures Accepts(times, KeyDecisions(Some(w), l, times), from, l.window) <= 2 * l.max - 1
    decreases |times|
  {
    if times != [] {
      Tail(times);
      if times[0] >= from {
        RoomLeft(w, l, times, from);
      } else {
        AcceptsFromWindow(HitWindow(Some(w), l, times[0]).0, l, times[1..], from);
      }
    }
  }

  /**
   THE SLIDING BOUND. With a clock that never runs back, a key's accepted hits in any
   half-open stretch as long as its window number at most 2 * max - 1, and none if max is 0.
   */
  lemma SlidingBound(l: Limit, times: seq<nat>, from: nat)
    requires NonDecreasing(times)
    ensures Accepts(times, KeyDecisions(None, l, times), from, l.window) <= if l.max == 0 then 0 else 2 * l.max - 1
  {
    if times != [] {
      Tail(times);
      var w := HitWindow(None, l, times[0]).0;
      if times[0] >= from {
        RoomLeft(w, l, times[1..], from);
      } else if l.max > 0 {
        AcceptsFromWindow(w, l, times[1..], from);
      } else {
        NothingAllowed(None, l, times, from);
      }
    }
  }

  lemma {:induction false} NothingAllowed(w: Option<Window>, l: Limit, times: seq<nat>, from: nat)
    requires l.max == 0
    ensures Accepts(times, KeyDecisions(w, l, times), from, l.window) == 0
    decreases |times|
  {
    if times != [] { NothingAllowed(Some(HitWindow(w, l, times[0]).0), l, times[1..], from); }
  }

  // ── the bound is met ──

  function Repeat(t: nat, n: nat): (s: seq<nat>)
    ensures |s| == n && forall i :: 0 <= i < n ==> s[i] == t
  {
    if n == 0 then [] else [t] + Repeat(t, n - 1)
  }

  /** n hits at one moment of an open window with room for them. */
  lemma {:induction false} Burst(w: Window, l: Limit, t: nat, n: nat, rest: seq<nat>, from: nat)
    requires Sub(t, w.start) < l.window && w.count + n <= l.max && from <= t < from + l.window
    ensures var times := Repeat(t, n) + rest;
            Accepts(times, KeyDecisions(Some(w), l, times), from, l.window)
            == n + Accepts(rest, KeyDecisions(Some(w.(count := w.count + n)), l, rest), from, l.window)
    decreases n
  {
    var times := Repeat(t, n) + rest;
    if n == 0 {
      assert times == rest;
    } else {
      assert times[1..] == Repeat(t, n - 1) + rest;
      Burst(w.(count := w.count + 1), l, t, n - 1, rest, from);
    }
  }

  /** One hit, a burst just before its window ends and a burst just after. */
  function Straddle(l: Limit): (times: seq<nat>)
    requires l.max >= 1 && l.window >= 2
    ensures |times| == 2 * l.max && NonDecreasing(times)
  {
    [0] + Repeat(l.window - 1, l.max - 1) + Repeat(l.window, l.max)
  }

  /** THE BOUND IS TIGHT for every limit and every window of two seconds or more. */
  lemma BoundIsMet(l: Limit)
    requires l.max >= 1 && l.window >= 2
    ensures Accepts(Straddle(l), KeyDecisions(None, l, Straddle(l)), l.window - 1, l.window) == 2 * l.max - 1
  {
    hide NonDecreasing, KeyDecisions, HitWindow;
    var times := Straddle(l);
    var from := l.window - 1;
    var late := Repeat(l.window, l.max);
    var rest := Repeat(l.window - 1, l.max - 1) + late;
    assert times == [0] + rest && times[1..] == rest && times[0] == 0;
    FirstHit(None, l, times, 0);
    Burst(Window(0, 1), l, l.window - 1, l.max - 1, late, from);
    LateBurst(l);
  }

  lemma FirstHit(w: Option<Window>, l: Limit, times: seq<nat>, now: nat)
    requires times != [] && times[0] == now && l.max >= 1 && (w.Some? ==> Sub(now, w.value.start) >= l.window)
    ensures KeyDecisions(w, l, times) == [true] + KeyDecisions(Some(Window(now, 1)), l, times[1..])
  {
  }

  lemma LateBurst(l: Limit)
    requires l.max >= 1 && l.window >= 2
    ensures var late := Repeat(l.window, l.max);
            Accepts(late, KeyDecisions(Some(Window(0, l.max)), l, late), l.window - 1, l.window) == l.max
  {
    hide KeyDecisions, HitWindow;
    var late, again := Repeat(l.window, l.max), Repeat(l.window, l.max - 1);
    assert late[0] == l.window && late[1..] == again && again + [] == again;
    FirstHit(Some(Window(0, l.max)), l, late, l.window);
    Burst(Window(l.window, 1), l, l.window, l.max - 1, [], l.window - 1);
  }

  // ── stored windows ──

  lemma {:induction false} NoWidth(times: seq<nat>, decisions: seq<bool>, from: nat)
    requires |times| == |decisions|
    ensures Accepts(times, decisions, from, 0) == 0
  {
    if times != [] { NoWidth(times[1..], decisions[1..], from); }
  }

  /** Windows follow one another at a window's length or more. */
  lemma {:induction false} WindowsFollow(w: Window, l: Limit, times: seq<nat>)
    requires NonDecreasing(times) && NotBefore(times, w.start)
    ensures var r := KeyFinal(Some(w), l, times);
            r.Some? && (r.value.start == w.start || r.value.start >= w.start + l.window)
    decreases |times|
  {
    if times != [] {
      Tail(times);
      WindowsFollow(HitWindow(Some(w), l, times[0]).0, l, times[1..]);
    }
  }

  lemma {:induction false} WindowHolds(w: Window, l: Limit, past: seq<nat>, future: seq<nat>)
    requires NonDecreasing(past + future) && NotBefore(past + future, w.start) && w.count <= l.max && l.window > 0
    requires NonDecreasing(past) && NotBefore(past, w.start)
    ensures var r := KeyFinal(Some(w), l, past);
            && r.Some?
            && Accepts(past + future, KeyDecisions(Some(w), l, past + future), r.value.start, l.window)
               + (if r.value.start == w.start then w.count else 0) <= l.max
    decreases |past|
  {
    if past == [] {
      assert past + future == future;
      RoomLeft(w, l, future, w.start);
    } else {
      Tail(past);
      Tail(past + future);
      assert (past + future)[0] == past[0] && (past + future)[1..] == past[1..] + future;
      var w' := HitWindow(Some(w), l, past[0]).0;
      WindowHolds(w', l, past[1..], future);
      WindowsFollow(w', l, past[1..]);
    }
  }

  /** MAX PER STORED WINDOW. Whenever a key has a stored window, that window's stretch of time
      holds at most max accepted hits, before and after. */
  lemma StoredWindowBound(l: Limit, past: seq<nat>, future: seq<nat>)
    requires NonDecreasing(past + future) && past != []
    ensures var w := KeyFinal(None, l, past);
            && w.Some?
            && Accepts(past + future, KeyDecisions(None, l, past + future), w.value.start, l.window) <= l.max
  {
    var all := past + future;
    PrefixNonDecreasing(past, future);
    Tail(past);
    Tail(all);
    assert all[0] == past[0] && all[1..] == past[1..] + future;
    var w := HitWindow(None, l, past[0]).0;
    WindowsFollow(w, l, past[1..]);
    if l.window == 0 {
      NoWidth(all, KeyDecisions(None, l, all), KeyFinal(None, l, past).value.start);
    } else {
      WindowHolds(w, l, past[1..], future);
    }
  }

  lemma PrefixNonDecreasing(a: seq<nat>, b: seq<nat>)
    requires NonDecreasing(a + b)
    ensures NonDecreasing(a)
  {
    var s := a + b;
    forall i, j | 0 <= i < j < |a| ensures a[i] <= a[j] { assert s[i] <= s[j]; }
  }

  // ── many keys ──

  /** Limits are fixed per key. */
  type Policy = string -> Limit

  function Step(t: Table, p: Policy, c: Call): (r: (Table, bool)) {
    var (w, ok) := HitWindow(Lookup(t, c.key), p(c.key), c.now);
    (t[c.key := w], ok)
  }

  function Decisions(t: Table, p: Policy, calls: seq<Call>): (d: seq<bool>)
    ensures |d| == |calls|
    decreases |calls|
  {
    if calls == [] then []
    else
      var (t', ok) := Step(t, p, calls[0]);
      [ok] + Decisions(t', p, calls[1..])
  }

  function TimesOf(key: string, calls: seq<Call>): (times: seq<nat>) {
    if calls == [] then []
    else (if calls[0].key == key then [calls[0].now] else []) + TimesOf(key, calls[1..])
  }

  function DecisionsOf(key: string, calls: seq<Call>, d: seq<bool>): (r: seq<bool>)
    requires |calls| == |d|
    ensures |r| == |TimesOf(key, calls)|
  {
    if calls == [] then []
    else (if calls[0].key == key then [d[0]] else []) + DecisionsOf(key, calls[1..], d[1..])
  }

  /** KEYS DO NOT INTERFERE. In any trace, a key's decisions are those of its own hits run
      alone. */
  lemma {:induction false} KeysAreIndependent(t: Table, p: Policy, calls: seq<Call>, key: string)
    ensures DecisionsOf(key, calls, Decisions(t, p, calls)) == KeyDecisions(Lookup(t, key), p(key), TimesOf(key, calls))
    decreases |calls|
  {
    if calls != [] {
      hide HitWindow;
      var (t', ok) := Step(t, p, calls[0]);
      KeysAreIndependent(t', p, calls[1..], key);
      var times := TimesOf(key, calls);
      if calls[0].key == key {
        assert times[1..] == TimesOf(key, calls[1..]);
      } else {
        assert Lookup(t', key) == Lookup(t, key);
        assert times == TimesOf(key, calls[1..]);
      }
    }
  }

  ghost predicate ClockForward(calls: seq<Call>) {
    forall i, j :: 0 <= i < j < |calls| ==> calls[i].now <= calls[j].now
  }

  lemma {:induction false} TimesAreForward(key: string, calls: seq<Call>, floor: nat)
    requires ClockForward(calls) && forall i :: 0 <= i < |calls| ==> floor <= calls[i].now
    ensures NonDecreasing(TimesOf(key, calls)) && NotBefore(TimesOf(key, calls), floor)
  {
    if calls != [] {
      assert ClockForward(calls[1..]) by {
        forall i, j | 0 <= i < j < |calls[1..]| ensures calls[1..][i].now <= calls[1..][j].now {
          assert calls[1..][i] == calls[i + 1] && calls[1..][j] == calls[j + 1];
        }
      }
      forall i | 0 <= i < |calls[1..]| ensures calls[0].now <= calls[1..][i].now {
        assert calls[1..][i] == calls[i + 1];
      }
      TimesAreForward(key, calls[1..], calls[0].now);
    }
  }

  /** THE SLIDING BOUND, in any interleaving of keys, from an empty table. */
  lemma SlidingBoundPerKey(p: Policy, calls: seq<Call>, key: string, from: nat)
    requires ClockForward(calls)
    ensures Accepts(TimesOf(key, calls), DecisionsOf(key, calls, Decisions(map[], p, calls)), from, p(key).window)
         <= if p(key).max == 0 then 0 else 2 * p(key).max - 1
  {
    KeysAreIndependent(map[], p, calls, key);
    TimesAreForward(key, calls, 0);
    SlidingBound(p(key), TimesOf(key, calls), from);
  }
}
