/** The fixed one-second window that limits page actions, and the sliding bound it really gives. */
module RateLimiter {
  const WINDOW: nat := 1000

  datatype Window = Window(start: nat, count: nat)
  datatype Call = Call(now: nat, max: nat)

  /** One `try_acquire`: the window it leaves and whether the call may go on. */
  function Acquire(w: Window, call: Call): (Window, bool) {
    if call.max == 0 then (w, false)
    else
      // the clock is unsigned and the subtraction saturates: a clock set back stays in the window
      var elapsed := if call.now >= w.start then call.now - w.start else 0;
      var open := if w.count == 0 || elapsed >= WINDOW then Window(call.now, 0) else w;
      if open.count >= call.max then (open, false) else (open.(count := open.count + 1), true)
  }

  class ActionRateLimiter {
    var windowStarted: nat
    var count: nat

    ghost function Get(): Window
      reads this
    {
      Window(windowStarted, count)
    }

    constructor ()
      ensures Get() == Window(0, 0)
    {
      windowStarted, count := 0, 0;
    }

    method TryAcquire(now: nat, maxPerSecond: nat) returns (granted: bool)
      modifies this
      ensures (Get(), granted) == Acquire(old(Get()), Call(now, maxPerSecond))
      ensures granted ==> count <= maxPerSecond
    {
      if maxPerSecond == 0 {
        return false;
      }
      var elapsed := if now >= windowStarted then now - windowStarted else 0;
      if count == 0 || elapsed >= WINDOW {
        windowStarted := now;
        count := 0;
      }
      if count >= maxPerSecond {
        return false;
      }
      count := count + 1;
      granted := true;
    }
  }

  // ---------------------------------------------------------------- runs

  function After(calls: seq<Call>): Window {
    if calls == [] then Window(0, 0) else Acquire(After(calls[..|calls| - 1]), calls[|calls| - 1]).0
  }

  /** Whether the call that follows `calls` would be granted. */
  predicate Grants(calls: seq<Call>, next: Call) {
    Acquire(After(calls), next).1
  }

  /** How many calls made at a time in [a, b) were granted. */
  function Granted(calls: seq<Call>, a: int, b: int): nat {
    if calls == [] then 0 else
      var next := calls[|calls| - 1];
      Granted(calls[..|calls| - 1], a, b) +
      if a <= next.now < b && Grants(calls[..|calls| - 1], next) then 1 else 0
  }

  ghost predicate Limited(calls: seq<Call>, limit: nat) {
    forall i :: 0 <= i < |calls| ==> calls[i].max <= limit
  }

  /** No call is granted at a time before the window it is counted in. The clock may otherwise go back. */
  ghost predicate OnTime(calls: seq<Call>) {
    calls == [] ||
    var before, next := calls[..|calls| - 1], calls[|calls| - 1];
    OnTime(before) && (Grants(before, next) ==> After(calls).start <= next.now)
  }

  /** The clock never goes back and no call asks for more than `limit`. */
  ghost predicate Orderly(calls: seq<Call>, limit: nat) {
    (forall i, j :: 0 <= i <= j < |calls| ==> calls[i].now <= calls[j].now) &&
    (forall i :: 0 <= i < |calls| ==> calls[i].max <= limit)
  }

  lemma {:induction false} WindowIsPast(calls: seq<Call>, limit: nat)
    requires Orderly(calls, limit)
    ensures After(calls).count <= limit
    ensures After(calls).count == 0 ==> After(calls) == Window(0, 0) && forall i :: 0 <= i < |calls| ==> calls[i].max == 0
    ensures After(calls).count > 0 ==> exists i :: 0 <= i < |calls| && calls[i].now == After(calls).start
  {
    if calls != [] {
      var before, next := calls[..|calls| - 1], calls[|calls| - 1];
      WindowIsPast(before, limit);
      if After(before).count > 0 {
        var i :| 0 <= i < |before| && before[i].now == After(before).start;
        assert calls[i].now == After(before).start;
      }
      assert calls[|calls| - 1].now == next.now;
    }
  }

  /** A clock that never goes back is on time. */
  lemma {:induction false} OrderlyIsOnTime(calls: seq<Call>, limit: nat)
    requires Orderly(calls, limit)
    ensures OnTime(calls) && Limited(calls, limit)
  {
    if calls != [] {
      OrderlyIsOnTime(calls[..|calls| - 1], limit);
      WindowIsPast(calls, limit);
    }
  }

  /** The window number of the open window, counted from `a`. */
  function WindowNo(start: nat, a: nat): nat
    requires start >= a
  {
    (start - a) / WINDOW
  }

  function Budget(limit: nat, windows: nat): nat {
    limit * windows
  }

  lemma Later(start: nat, next: nat, a: nat, limit: nat)
    requires a <= start && start + WINDOW <= next
    ensures Budget(limit, WindowNo(start, a)) + limit <= Budget(limit, WindowNo(next, a))
  {
    Grow(limit, WindowNo(start, a) + 1, WindowNo(next, a));
  }

  lemma Within(start: nat, a: nat, k: nat, limit: nat)
    requires a <= start < a + WINDOW * k
    ensures Budget(limit, WindowNo(start, a)) + limit <= Budget(limit, k)
  {
    Grow(limit, WindowNo(start, a) + 1, k);
  }

  lemma Grow(limit: nat, m: nat, n: nat)
    requires m <= n
    ensures limit * m <= limit * n
  {
  }

  /** What the grants since `a` can be, by the window that is open. */
  ghost predicate Bounded(g: nat, w: Window, a: nat, limit: nat) {
    if w.count == 0 || w.start + WINDOW <= a then g == 0
    else if w.start < a then g <= w.count - 1
    else g <= limit - 1 + Budget(limit, WindowNo(w.start, a)) + w.count
  }

  /** Windows start at least a second apart, and one that starts before the interval spent a grant there. */
  lemma StepIsBounded(g: nat, w: Window, next: Call, a: nat, b: nat, limit: nat)
    requires Bounded(g, w, a, limit) && w.count <= limit && 0 < limit && next.max <= limit
    requires var (v, ok) := Acquire(w, next); ok ==> v.start <= next.now
    ensures var (v, ok) := Acquire(w, next);
      Bounded(g + if a <= next.now < b && ok then 1 else 0, v, a, limit) && v.count <= limit
  {
    hide Budget, WindowNo;
    if w.count > 0 && a <= w.start && w.start + WINDOW <= next.now {
      Later(w.start, next.now, a, limit);
    }
  }

  lemma CountedIsWithin(g: nat, v: Window, a: nat, k: nat, limit: nat)
    requires Bounded(g, v, a, limit) && v.count <= limit && 0 < limit && v.start < a + WINDOW * k
    ensures g <= Budget(limit, k) + limit - 1
  {
    hide Budget, WindowNo;
    if a <= v.start {
      Within(v.start, a, k, limit);
    }
  }

  lemma {:induction false} GrantsAreBounded(calls: seq<Call>, limit: nat, a: nat, k: nat)
    requires OnTime(calls) && Limited(calls, limit) && limit > 0
    ensures Bounded(Granted(calls, a, a + WINDOW * k), After(calls), a, limit) && After(calls).count <= limit
    ensures Granted(calls, a, a + WINDOW * k) <= Budget(limit, k) + limit - 1
  {
    hide Budget, WindowNo, Bounded, Acquire;
    if calls == [] {
      NothingGranted(a, k, limit);
    } else {
      var before, next := calls[..|calls| - 1], calls[|calls| - 1];
      GrantsAreBounded(before, limit, a, k);
      var g := Granted(before, a, a + WINDOW * k);
      StepIsBounded(g, After(before), next, a, a + WINDOW * k, limit);
      if a <= next.now < a + WINDOW * k && Grants(before, next) {
        CountedIsWithin(g + 1, After(calls), a, k, limit);
      }
    }
  }

  lemma NothingGranted(a: nat, k: nat, limit: nat)
    ensures Bounded(0, Window(0, 0), a, limit)
  {
  }

  /** In any stretch of k seconds, wherever it begins, fewer than k + 1 times the limit are granted. */
  lemma SlidingBound(calls: seq<Call>, limit: nat, a: nat, k: nat)
    requires OnTime(calls) && Limited(calls, limit)
    ensures Granted(calls, a, a + 1000 * k) <= if limit == 0 then 0 else (k + 1) * limit - 1
  {
    if limit == 0 {
      NothingForZero(calls, a, a + WINDOW * k);
    } else {
      GrantsAreBounded(calls, limit, a, k);
    }
  }

  lemma {:induction false} NothingForZero(calls: seq<Call>, a: int, b: int)
    requires Limited(calls, 0)
    ensures Granted(calls, a, b) == 0
  {
    if calls != [] {
      NothingForZero(calls[..|calls| - 1], a, b);
    }
  }

  // ---------------------------------------------------------------- the bound is reached

  function Repeat(now: nat, limit: nat, times: nat): seq<Call> {
    seq(times, _ => Call(now, limit))
  }

  lemma Append(calls: seq<Call>, next: Call, a: int, b: int)
    ensures After(calls + [next]) == Acquire(After(calls), next).0
    ensures Granted(calls + [next], a, b) ==
      Granted(calls, a, b) + if a <= next.now < b && Grants(calls, next) then 1 else 0
  {
    var all := calls + [next];
    assert all[..|all| - 1] == calls;
  }

  lemma RepeatOne(calls: seq<Call>, now: nat, limit: nat, times: nat)
    requires times > 0
    ensures calls + Repeat(now, limit, times) == calls + Repeat(now, limit, times - 1) + [Call(now, limit)]
  {
  }

  lemma RepeatNone(calls: seq<Call>, now: nat, limit: nat)
    ensures calls + Repeat(now, limit, 0) == calls && Filled(After(calls), now, 0) == After(calls)
  {
  }

  /** Whether `times` calls at `now` find room, and the window they leave. */
  predicate Room(w: Window, now: nat, limit: nat, times: nat) {
    times <= limit && (w.count == 0 || w.start + WINDOW <= now || (w.start <= now && w.count + times <= limit))
  }

  function Filled(w: Window, now: nat, times: nat): Window {
    if times == 0 then w
    else if w.count == 0 || w.start + WINDOW <= now then Window(now, times)
    else w.(count := w.count + times)
  }

  lemma FillOne(w: Window, now: nat, limit: nat, times: nat)
    requires times > 0 && Room(w, now, limit, times)
    ensures Room(w, now, limit, times - 1)
    ensures Acquire(Filled(w, now, times - 1), Call(now, limit)) == (Filled(w, now, times), true)
  {
  }

  lemma {:induction false} RepeatGrants(calls: seq<Call>, now: nat, limit: nat, times: nat, a: nat, b: nat)
    requires a <= now < b && Room(After(calls), now, limit, times)
    ensures Granted(calls + Repeat(now, limit, times), a, b) == Granted(calls, a, b) + times
    ensures After(calls + Repeat(now, limit, times)) == Filled(After(calls), now, times)
  {
    hide After, Granted, Repeat, Room, Filled, Acquire;
    if times == 0 {
      RepeatNone(calls, now, limit);
    } else {
      FillOne(After(calls), now, limit, times);
      RepeatGrants(calls, now, limit, times - 1, a, b);
      RepeatOne(calls, now, limit, times);
      Append(calls + Repeat(now, limit, times - 1), Call(now, limit), a, b);
    }
  }

  /** One call at 0, the rest of the first window's share at 999, a full share at each later second. */
  function Worst(limit: nat, k: nat): seq<Call>
    requires limit > 0
  {
    if k == 0 then [Call(0, limit)] + Repeat(999, limit, limit - 1)
    else Worst(limit, k - 1) + Repeat(WINDOW * k, limit, limit)
  }

  lemma {:induction false} WorstIsOrderly(limit: nat, k: nat)
    requires limit > 0
    ensures Orderly(Worst(limit, k), limit)
    ensures forall i :: 0 <= i < |Worst(limit, k)| ==> Worst(limit, k)[i].now <= if k == 0 then 999 else WINDOW * k
  {
    if k > 0 {
      WorstIsOrderly(limit, k - 1);
    }
  }

  lemma FirstGrants(limit: nat, b: nat)
    requires limit > 0
    ensures After([Call(0, limit)]) == Window(0, 1) && Granted([Call(0, limit)], 1, b) == 0
  {
    Append([], Call(0, limit), 1, b);
    assert [] + [Call(0, limit)] == [Call(0, limit)];
  }

  function Share(limit: nat, k: nat): nat
    requires limit > 0
  {
    (k + 1) * limit - 1
  }

  lemma OneMore(limit: nat, k: nat)
    requires limit > 0 && k > 0
    ensures Share(limit, 0) == limit - 1 && Share(limit, k - 1) + limit == Share(limit, k)
  {
  }

  lemma NextShare(limit: nat, k: nat, calls: seq<Call>, a: nat, b: nat)
    requires limit > 0 && k > 0 && After(calls) == Window(WINDOW * (k - 1), limit) && a <= WINDOW * k < b
    ensures After(calls + Repeat(WINDOW * k, limit, limit)) == Window(WINDOW * k, limit)
    ensures Granted(calls + Repeat(WINDOW * k, limit, limit), a, b) == Granted(calls, a, b) + limit
  {
    hide After, Granted, Repeat;
    RepeatGrants(calls, WINDOW * k, limit, limit, a, b);
  }

  lemma {:induction false} WorstGrants(limit: nat, k: nat, b: nat)
    requires limit > 0 && b > WINDOW * k && b > 999
    ensures Granted(Worst(limit, k), 1, b) == Share(limit, k)
    ensures After(Worst(limit, k)) == Window(WINDOW * k, limit)
    decreases k
  {
    hide After, Granted, Repeat, Share;
    if k == 0 {
      FirstGrants(limit, b);
      OneMore(limit, 1);
      RepeatGrants([Call(0, limit)], 999, limit, limit - 1, 1, b);
    } else {
      WorstGrants(limit, k - 1, b);
      NextShare(limit, k, Worst(limit, k - 1), 1, b);
      OneMore(limit, k);
    }
  }

  /** No smaller bound holds: some run reaches it, for every limit and every whole number of seconds. */
  lemma BoundIsReached(limit: nat, k: nat)
    requires limit > 0 && k > 0
    ensures exists calls :: Orderly(calls, limit) && Granted(calls, 1, 1 + 1000 * k) == (k + 1) * limit - 1
  {
    WorstIsOrderly(limit, k);
    WorstGrants(limit, k, 1 + WINDOW * k);
  }

  // ---------------------------------------------------------------- nothing is denied without cause

  lemma {:induction false} CountIsRecent(calls: seq<Call>, limit: nat, a: nat, b: nat)
    requires Orderly(calls, limit) && (After(calls).count > 0 ==> a <= After(calls).start)
    requires forall i :: 0 <= i < |calls| ==> calls[i].now < b
    ensures After(calls).count <= Granted(calls, a, b)
  {
    if calls != [] {
      var before, next := calls[..|calls| - 1], calls[|calls| - 1];
      WindowIsPast(before, limit);
      if After(before).start == After(calls).start {
        CountIsRecent(before, limit, a, b);
      }
    }
  }

  /** While no call asks for more than this one, it is denied only when at least `limit` grants lie in
      the second that ends with it. */
  lemma DeniedHasACause(calls: seq<Call>, now: nat, limit: nat)
    requires Orderly(calls + [Call(now, limit)], limit)
    ensures !Grants(calls, Call(now, limit)) ==> Granted(calls, now - 999, now + 1) >= limit
  {
    var all := calls + [Call(now, limit)];
    assert forall i :: 0 <= i < |calls| ==> calls[i] == all[i];
    assert all[|calls|] == Call(now, limit);
    assert forall i :: 0 <= i < |calls| ==> calls[i].now <= now by {
      forall i | 0 <= i < |calls| ensures calls[i].now <= now {
        assert all[i].now <= all[|calls|].now;
      }
    }
    if !Grants(calls, Call(now, limit)) && limit > 0 {
      var w := After(calls);
      WindowIsPast(calls, limit);
      CountIsRecent(calls, limit, if now < WINDOW then 0 else now - WINDOW + 1, now + 1);
      if now < WINDOW {
        SameFromZero(calls, now - WINDOW + 1, now + 1);
      }
    }
  }

  lemma {:induction false} SameFromZero(calls: seq<Call>, a: int, b: int)
    requires a <= 0
    ensures Granted(calls, a, b) == Granted(calls, 0, b)
  {
    if calls != [] {
      SameFromZero(calls[..|calls| - 1], a, b);
    }
  }

  // ---------------------------------------------------------------- a clock that goes back

  function SetBack(n: nat): seq<Call> {
    if n == 0 then [] else SetBack(n - 1) + [Call(WINDOW * n, 2), Call(500, 2)]
  }

  /** The bound needs the condition: a clock that falls back to the same instant in every window is
      granted there without end, before the window it is counted in. */
  lemma {:induction false} SetBackGrants(n: nat)
    ensures Granted(SetBack(n), 500, 501) == n
    ensures n > 0 ==> After(SetBack(n)) == Window(WINDOW * n, 2) && !OnTime(SetBack(n))
  {
    if n > 0 {
      SetBackGrants(n - 1);
      var before, all := SetBack(n - 1), SetBack(n);
      var mid := before + [Call(WINDOW * n, 2)];
      assert mid[..|mid| - 1] == before;
      assert all[..|all| - 1] == mid;
      assert After(mid) == Window(WINDOW * n, 1);
      assert Granted(mid, 500, 501) == n - 1;
    }
  }
}
