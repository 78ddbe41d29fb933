/**
 * The sliding-window request gate that every exchange request of the futures
 * position analysis passes through (`RateLimiter`: at most `max_requests`
 * requests per `time_window`). Its lock only serialises callers, so one call
 * is one sequential step here; the clock is an explicit `now` argument, and
 * the sleep is returned as a wait duration instead of being performed.
 *
 * `RateLimiter` is the gate as written. `WindowGate` is the corrected gate:
 * it records when a request is actually let through and waits for the
 * max-th most recent admission, and it provably never lets more than
 * `maxRequests` requests through in any window.
 */
module RateLimit {

  /** The times at positions `i` < `j` of `s` are in order. */
  predicate InOrder(s: seq<int>, i: nat, j: nat)
    requires i < j < |s|
  {
    s[i] <= s[j]
  }

  predicate Sorted(s: seq<int>)
  {
    forall i: nat, j: nat :: i < j < |s| ==> InOrder(s, i, j)
  }

  /**
   * How many timestamps a call at `now` drops from the front of the queue:
   * each one strictly more than `window` old, up to the first that is not.
   */
  function PurgeCount(queue: seq<int>, now: int, window: int): (k: nat)
    ensures k <= |queue|
    ensures forall i :: 0 <= i < k ==> now - queue[i] > window
    ensures k < |queue| ==> now - queue[k] <= window
  {
    if queue == [] || now - queue[0] <= window then 0
    else 1 + PurgeCount(queue[1..], now, window)
  }

  /** The queue after the purge. */
  function Retained(queue: seq<int>, now: int, window: int): seq<int>
  {
    queue[PurgeCount(queue, now, window)..]
  }

  /**
   * The purge keeps a suffix of the queue: every entry dropped was more than
   * a window old, and the first entry kept is not.
   */
  lemma RetainedDropsExpired(queue: seq<int>, now: int, window: int)
    ensures var r := Retained(queue, now, window);
      && |r| <= |queue|
      && (forall i :: 0 <= i < |r| ==> r[i] == queue[|queue| - |r| + i])
      && (forall i :: 0 <= i < |queue| - |r| ==> now - queue[i] > window)
      && (r != [] ==> now - r[0] <= window)
  {
  }

  /**
   * The sleep before the request goes out: only when the retained queue is
   * at capacity, until its oldest entry is `window` old, and only if positive.
   */
  function WaitTime(retained: seq<int>, now: int, window: int, maxRequests: nat): (w: int)
    requires maxRequests >= 1
    ensures w >= 0
    ensures |retained| < maxRequests ==> w == 0
    ensures w > 0 ==> now + w == retained[0] + window
  {
    if |retained| >= maxRequests && retained[0] + window - now > 0
    then retained[0] + window - now
    else 0
  }

  /** The queue after one call and the time that call waits. */
  datatype Admission = Admission(queue: seq<int>, wait: int)

  /** One `acquire` as written: purge, compute the wait, append the entry time. */
  function Step(queue: seq<int>, now: int, window: int, maxRequests: nat): Admission
    requires maxRequests >= 1
  {
    var kept := Retained(queue, now, window);
    Admission(kept + [now], WaitTime(kept, now, window, maxRequests))
  }

  class RateLimiter {
    const maxRequests: nat
    const timeWindow: int
    var requests: seq<int>

    constructor (maxRequests: nat, timeWindow: int)
      requires maxRequests >= 1
      ensures this.maxRequests == maxRequests && this.timeWindow == timeWindow
      ensures requests == []
    {
      this.maxRequests := maxRequests;
      this.timeWindow := timeWindow;
      requests := [];
    }

    /** `acquire` called at time `now`; returns how long it sleeps. */
    method Acquire(now: int) returns (wait: int)
      requires maxRequests >= 1
      modifies this
      ensures Admission(requests, wait) == Step(old(requests), now, timeWindow, maxRequests)
      ensures |requests| == |old(requests)| - PurgeCount(old(requests), now, timeWindow) + 1
      ensures requests[|requests| - 1] == now
    {
      var currentTime := now;
      ghost var purged: nat := 0;
      while requests != []
        invariant purged <= |old(requests)| && requests == old(requests)[purged..]
        invariant PurgeCount(old(requests), now, timeWindow) == purged + PurgeCount(requests, now, timeWindow)
        decreases |requests|
      {
        var requestTime := requests[0];
        if currentTime - requestTime > timeWindow {
          requests := requests[1..];
          purged := purged + 1;
        } else {
          break;
        }
      }
      wait := 0;
      if |requests| >= maxRequests {
        var oldestRequest := requests[0];
        var sleepTime := oldestRequest + timeWindow - currentTime;
        if sleepTime > 0 {
          wait := sleepTime;
        }
      }
      requests := requests + [currentTime];
    }
  }

  /**
   * With a clock that never runs backwards the queue stays sorted, and every
   * entry it keeps is at most `window` old (an entry exactly `window` old is kept).
   */
  lemma StepKeepsSorted(queue: seq<int>, now: int, window: int, maxRequests: nat)
    requires maxRequests >= 1 && window >= 0
    requires Sorted(queue) && forall i :: 0 <= i < |queue| ==> queue[i] <= now
    ensures Sorted(Step(queue, now, window, maxRequests).queue)
    ensures forall t :: t in Step(queue, now, window, maxRequests).queue ==> now - window <= t <= now
  {
    var k := PurgeCount(queue, now, window);
    var next := Step(queue, now, window, maxRequests).queue;
    assert next == queue[k..] + [now];
    forall i: nat, j: nat | i < j < |next| ensures InOrder(next, i, j) {
      if j < |next| - 1 {
        assert InOrder(queue, k + i, k + j);
      }
    }
    forall t | t in next ensures now - window <= t <= now {
      if t != now {
        var i :| k <= i < |queue| && queue[i] == t;
        if i > k {
          assert InOrder(queue, k, i);
        }
      }
    }
  }

  /** A call waits only at capacity, and never longer than one window. */
  lemma WaitBounds(queue: seq<int>, now: int, window: int, maxRequests: nat)
    requires maxRequests >= 1
    requires forall i :: 0 <= i < |queue| ==> queue[i] <= now
    ensures var a := Step(queue, now, window, maxRequests);
      && 0 <= a.wait
      && (a.wait <= window || a.wait == 0)
      && (a.wait > 0 <==>
            var kept := Retained(queue, now, window);
            |kept| >= maxRequests && kept[0] + window > now)
  {
  }

  /**
   * A call that finds the purged queue full, with its oldest entry still
   * inside the window, sleeps exactly until that entry leaves the window.
   */
  lemma WaitAtCapacity(queue: seq<int>, now: int, window: int, maxRequests: nat)
    requires maxRequests >= 1
    ensures var kept := Retained(queue, now, window);
      |kept| >= maxRequests && kept[0] + window > now ==>
        Step(queue, now, window, maxRequests).wait == kept[0] + window - now
  {
  }

  /** The waits of a sequence of calls made at the times `nows`, one after another. */
  datatype Trace = Trace(queue: seq<int>, waits: seq<int>)

  function Run(queue: seq<int>, nows: seq<int>, window: int, maxRequests: nat): (t: Trace)
    requires maxRequests >= 1
    ensures |t.waits| == |nows|
    decreases |nows|
  {
    if nows == [] then Trace(queue, [])
    else
      var a := Step(queue, nows[0], window, maxRequests);
      var rest := Run(a.queue, nows[1..], window, maxRequests);
      Trace(rest.queue, [a.wait] + rest.waits)
  }

  /**
   * While the queue plus the calls still to come fit within `maxRequests`,
   * no call waits; from an empty gate, the first `maxRequests` calls go straight through.
   */
  lemma {:induction false} NoWaitBelowCapacity(queue: seq<int>, nows: seq<int>, window: int, maxRequests: nat)
    requires maxRequests >= 1 && |queue| + |nows| <= maxRequests
    ensures forall k :: 0 <= k < |nows| ==> Run(queue, nows, window, maxRequests).waits[k] == 0
    decreases |nows|
  {
    if nows != [] {
      var a := Step(queue, nows[0], window, maxRequests);
      assert |a.queue| <= |queue| + 1;
      NoWaitBelowCapacity(a.queue, nows[1..], window, maxRequests);
    }
  }

  /** The times at which the calls actually go out: entry time plus wait. */
  function Admitted(nows: seq<int>, waits: seq<int>): (r: seq<int>)
    requires |nows| == |waits|
    ensures |r| == |nows|
    ensures forall i :: 0 <= i < |nows| ==> r[i] == nows[i] + waits[i]
  {
    seq(|nows|, i requires 0 <= i < |nows| => nows[i] + waits[i])
  }

  /** How many of the times in `h` fall in the window (lo, hi]. */
  function CountIn(h: seq<int>, lo: int, hi: int): (c: nat)
    ensures c <= |h|
  {
    if h == [] then 0
    else CountIn(h[..|h| - 1], lo, hi) + (if lo < h[|h| - 1] <= hi then 1 else 0)
  }

  /**
   * Any two admissions `n` or more places apart are at least `window` apart
   * in time: the gate's promise, stated on the admission history.
   */
  predicate Spaced(h: seq<int>, n: nat, window: int)
  {
    forall i: nat, j: nat :: i < j < |h| && j - i >= n ==> Apart(h, i, j, window)
  }

  /** Admissions `i` and `j` are at least a window apart. */
  predicate Apart(h: seq<int>, i: nat, j: nat, window: int)
    requires i < j < |h|
  {
    h[j] - h[i] >= window
  }

  /**
   * The gate as written breaks that promise. With `maxRequests` = 1 and a
   * window of 10, calls at 0, 0 and 11 wait 0, 10 and 0: the second call is
   * let through at 10 but queued as 0, so the third, at 11, is not held back,
   * and the window (1, 11] holds two admissions.
   */
  lemma AsWrittenAdmitsBurst()
    ensures Run([], [0, 0, 11], 10, 1).waits == [0, 10, 0]
    ensures Admitted([0, 0, 11], [0, 10, 0]) == [0, 10, 11]
    ensures CountIn([0, 10, 11], 11 - 10, 11) == 2
    ensures !Spaced([0, 10, 11], 1, 10)
  {
    AsWrittenWaits();
    BurstTimes();
    BurstCount();
  }

  lemma BurstTimes()
    ensures Admitted([0, 0, 11], [0, 10, 0]) == [0, 10, 11]
    ensures !Spaced([0, 10, 11], 1, 10)
  {
    assert !Apart([0, 10, 11], 1, 2, 10);
  }

  lemma BurstCount()
    ensures CountIn([0, 10, 11], 1, 11) == 2
  {
    assert [0, 10, 11][..2] == [0, 10];
    assert [0, 10][..1] == [0];
    assert [0][..0] == [];
  }

  lemma FirstCalls()
    ensures Step([], 0, 10, 1) == Admission([0], 0)
    ensures Step([0], 0, 10, 1) == Admission([0, 0], 10)
  {
    assert PurgeCount([0], 0, 10) == 0;
  }

  lemma ThirdCall()
    ensures Step([0, 0], 11, 10, 1) == Admission([11], 0)
  {
    assert PurgeCount([0, 0], 11, 10) == 2 by {
      assert [0, 0][1..] == [0];
      assert PurgeCount([0], 11, 10) == 1 by { assert [0][1..] == []; }
    }
    assert [0, 0][2..] == [];
  }

  lemma AsWrittenWaits()
    ensures Run([], [0, 0, 11], 10, 1).waits == [0, 10, 0]
  {
    FirstCalls();
    SecondRun();
    assert [0, 0, 11][1..] == [0, 11];
  }

  lemma SecondRun()
    ensures Run([0], [0, 11], 10, 1).waits == [10, 0]
  {
    FirstCalls();
    ThirdRun();
    assert [0, 11][1..] == [11];
  }

  lemma ThirdRun()
    ensures Run([0, 0], [11], 10, 1).waits == [0]
  {
    ThirdCall();
    assert [11][1..] == [];
  }

  lemma AppendKeepsSorted(h: seq<int>, a: int)
    requires Sorted(h) && (h != [] ==> h[|h| - 1] <= a)
    ensures Sorted(h + [a])
  {
    var h' := h + [a];
    forall i: nat, j: nat | i < j < |h'| ensures InOrder(h', i, j) {
      if j < |h| {
        assert InOrder(h, i, j);
      } else if i < |h| - 1 {
        assert InOrder(h, i, |h| - 1);
      }
    }
  }

  /**
   * Admitting at `a` keeps the history spaced when `a` is no earlier than
   * `now`, every forgotten admission is more than a window before `now`, and,
   * if the gate still remembers `n` or more, the n-th most recent is at least
   * a window before `a`.
   */
  lemma AdmissionKeepsSpaced(h: seq<int>, kept: nat, now: int, a: int, n: nat, window: int)
    requires n >= 1 && Sorted(h) && Spaced(h, n, window) && kept <= |h| && now <= a
    requires forall i :: 0 <= i < |h| - kept ==> h[i] + window < now
    requires kept >= n ==> h[|h| - n] + window <= a
    ensures Spaced(h + [a], n, window)
  {
    var h' := h + [a];
    forall i: nat, j: nat | i < j < |h'| && j - i >= n ensures Apart(h', i, j, window) {
      if j < |h| {
        assert Apart(h, i, j, window);
      } else if kept >= n {
        if i < |h| - n {
          assert InOrder(h, i, |h| - n);
        }
      }
    }
  }

  /** Times with none of the first `k` inside (lo, hi] have at most |h| - k inside. */
  lemma {:induction false} CountInSkipsPrefix(h: seq<int>, lo: int, hi: int, k: nat)
    requires k <= |h|
    requires forall j :: 0 <= j < k ==> !(lo < h[j] <= hi)
    ensures CountIn(h, lo, hi) <= |h| - k
  {
    if h != [] {
      if |h| > k {
        CountInSkipsPrefix(h[..|h| - 1], lo, hi, k);
      } else {
        CountInSkipsPrefix(h[..|h| - 1], lo, hi, k - 1);
      }
    }
  }

  /**
   * A sorted, spaced admission history puts at most `n` admissions in any
   * window (x - window, x].
   */
  lemma {:induction false} SpacedBoundsWindow(h: seq<int>, n: nat, window: int, x: int)
    requires n >= 1 && Sorted(h) && Spaced(h, n, window)
    ensures CountIn(h, x - window, x) <= n
  {
    var m := |h|;
    if m > n {
      if h[m - 1] > x {
        var init := h[..m - 1];
        forall i: nat, j: nat | i < j < |init| ensures InOrder(init, i, j) && (j - i >= n ==> Apart(init, i, j, window)) {
          assert InOrder(h, i, j);
          if j - i >= n {
            assert Apart(h, i, j, window);
          }
        }
        SpacedBoundsWindow(init, n, window, x);
      } else {
        assert Apart(h, m - 1 - n, m - 1, window);
        forall j | 0 <= j < m - n ensures !(x - window < h[j] <= x) {
          if j < m - 1 - n {
            assert InOrder(h, j, m - 1 - n);
          }
        }
        CountInSkipsPrefix(h, x - window, x, m - n);
      }
    }
  }

  /** Drops the expired timestamps from the front of `queue`, as `acquire` does. */
  method PurgeExpired(queue: seq<int>, now: int, window: int) returns (kept: seq<int>)
    ensures kept == Retained(queue, now, window)
  {
    kept := queue;
    ghost var purged: nat := 0;
    while kept != []
      invariant purged <= |queue| && kept == queue[purged..]
      invariant PurgeCount(queue, now, window) == purged + PurgeCount(kept, now, window)
      decreases |kept|
    {
      if now - kept[0] > window {
        kept := kept[1..];
        purged := purged + 1;
      } else {
        break;
      }
    }
  }

  /** `r` is the last |r| entries of `h`. */
  ghost predicate EndsWith(h: seq<int>, r: seq<int>)
  {
    |r| <= |h| && forall i :: 0 <= i < |r| ==> r[i] == h[|h| - |r| + i]
  }

  /**
   * What the corrected gate keeps true: the history is sorted and spaced,
   * `latest` is its last admission, the gate remembers a suffix of it, and
   * every forgotten admission lies more than a window before `latest`.
   */
  ghost predicate GateInvariant(requests: seq<int>, history: seq<int>, latest: int, n: nat, window: int)
  {
    && n >= 1
    && Sorted(history)
    && Spaced(history, n, window)
    && (history != [] ==> latest == history[|history| - 1])
    && EndsWith(history, requests)
    && forall i :: 0 <= i < |history| - |requests| ==> history[i] + window < latest
  }

  /**
   * After a purge at `now` the gate still remembers a suffix of the history,
   * and every admission it no longer remembers lies more than a window before `now`.
   */
  lemma PurgeKeepsSuffix(requests: seq<int>, history: seq<int>, latest: int, window: int, now: int)
    requires EndsWith(history, requests)
    requires forall i :: 0 <= i < |history| - |requests| ==> history[i] + window < latest
    requires latest <= now
    ensures var kept := Retained(requests, now, window);
      && EndsWith(history, kept)
      && forall i :: 0 <= i < |history| - |kept| ==> history[i] + window < now
  {
    var k := PurgeCount(requests, now, window);
    var kept := requests[k..];
    forall i | 0 <= i < |kept| ensures kept[i] == history[|history| - |kept| + i] {
      assert kept[i] == requests[k + i];
    }
    forall i | 0 <= i < |history| - |kept| ensures history[i] + window < now {
      if i >= |history| - |requests| {
        assert history[i] == requests[i - (|history| - |requests|)];
      }
    }
  }

  /** Appending `a` to both a suffix and the sequence it ends keeps it a suffix. */
  lemma SuffixAppend(kept: seq<int>, history: seq<int>, a: int)
    requires EndsWith(history, kept)
    ensures EndsWith(history + [a], kept + [a])
  {
  }

  /**
   * Admitting at `a`, no earlier than `now` and no earlier than a window
   * after the n-th most recent remembered admission, keeps the invariant.
   */
  lemma AdmitKeepsInvariant(requests: seq<int>, history: seq<int>, latest: int, n: nat, window: int, now: int, a: int)
    requires GateInvariant(requests, history, latest, n, window)
    requires (history != [] ==> latest <= now) && now <= a
    requires var kept := Retained(requests, now, window);
      |kept| >= n ==> kept[|kept| - n] + window <= a
    ensures var kept := Retained(requests, now, window);
      |kept| >= n ==> |history| >= n && kept[|kept| - n] == history[|history| - n]
    ensures GateInvariant(Retained(requests, now, window) + [a], history + [a], a, n, window)
  {
    var kept := Retained(requests, now, window);
    if history == [] {
      assert requests == [] && kept == [];
    } else {
      PurgeKeepsSuffix(requests, history, latest, window, now);
    }
    AdmitKeepsOrder(history, |kept|, now, a, n, window);
    SuffixAppend(kept, history, a);
  }

  /** The ordering half of the invariant: admitting at `a` keeps the history sorted and spaced. */
  lemma AdmitKeepsOrder(history: seq<int>, kept: nat, now: int, a: int, n: nat, window: int)
    requires n >= 1 && Sorted(history) && Spaced(history, n, window)
    requires kept <= |history| && now <= a && (history != [] ==> history[|history| - 1] <= a)
    requires forall i :: 0 <= i < |history| - kept ==> history[i] + window < now
    requires kept >= n ==> history[|history| - n] + window <= a
    ensures Sorted(history + [a]) && Spaced(history + [a], n, window)
  {
    AdmissionKeepsSpaced(history, kept, now, a, n, window);
    AppendKeepsSorted(history, a);
  }

  /** Whatever the gate's state, no window (x - window, x] holds more than `n` admissions. */
  lemma GateBoundsWindow(requests: seq<int>, history: seq<int>, latest: int, n: nat, window: int, x: int)
    requires GateInvariant(requests, history, latest, n, window)
    ensures CountIn(history, x - window, x) <= n
  {
    SpacedBoundsWindow(history, n, window, x);
  }

  /**
   * The corrected gate. `history` (ghost) is every admission so far, in order;
   * `requests` is the suffix of it the gate still remembers.
   */
  class WindowGate {
    const maxRequests: nat
    const timeWindow: int
    var requests: seq<int>
    ghost var history: seq<int>
    ghost var latest: int

    ghost predicate Valid()
      reads this
    {
      GateInvariant(requests, history, latest, maxRequests, timeWindow)
    }

    constructor (maxRequests: nat, timeWindow: int)
      requires maxRequests >= 1
      ensures Valid()
      ensures this.maxRequests == maxRequests && this.timeWindow == timeWindow
      ensures requests == [] && history == []
    {
      this.maxRequests := maxRequests;
      this.timeWindow := timeWindow;
      requests := [];
      history := [];
      latest := 0;
    }

    /**
     * A call arriving at `now`, no earlier than the previous admission (the
     * lock is held through the sleep). The request goes out at `now + wait`,
     * which is recorded; the wait is the least that keeps the history spaced.
     */
    method Acquire(now: int) returns (wait: int)
      requires Valid()
      requires history != [] ==> history[|history| - 1] <= now
      modifies this
      ensures Valid()
      ensures wait >= 0
      ensures history == old(history) + [now + wait]
      ensures wait > 0 ==>
        (|old(history)| >= maxRequests
         && now + wait == old(history)[|old(history)| - maxRequests] + timeWindow)
    {
      var queue := PurgeExpired(requests, now, timeWindow);
      wait := 0;
      if |queue| >= maxRequests {
        var due := queue[|queue| - maxRequests] + timeWindow;
        if due > now {
          wait := due - now;
        }
      }
      var admitted := now + wait;
      ghost var history' := history + [admitted];
      AdmitKeepsInvariant(requests, history, latest, maxRequests, timeWindow, now, admitted);
      requests := queue + [admitted];
      history := history';
      latest := admitted;
    }
  }
}
