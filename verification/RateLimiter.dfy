/** The sliding-window rate limiter.

    The code keeps a queue of recent admissions and prunes it at every poll. Polls come in the order in
    which they get the lock; each has read the clock before, so their readings need not be in order. The
    specification forgets the queue: in clock order, a poll is admitted exactly when fewer than the maximum
    of all past admissions are younger than the window. Times are nanoseconds. */
module RateLimiter {

  datatype RateLimitError = RateLimitError(maxRequests: nat, window: nat, maxWait: nat)

  datatype ModelTier = Small | Medium | Large

  datatype Limits = Limits(maxRequests: nat, window: nat, maxWait: nat)

  /** `Panics` is the failing `expect` on the front of the queue. */
  datatype Outcome = Admitted | Wait(time: nat) | TooLong(error: RateLimitError) | Panics

  // ---------------------------------------------------------------- one poll

  /** The time since an instant, zero for one still to come. */
  function Elapsed(now: nat, t: nat): nat {
    if now >= t then now - t else 0
  }

  predicate Younger(t: nat, now: nat, window: nat) {
    Elapsed(now, t) < window
  }

  function Pruned(queue: seq<nat>, now: nat, window: nat): (r: seq<nat>)
    ensures r != [] ==> Younger(r[0], now, window)
  {
    if queue != [] && !Younger(queue[0], now, window) then Pruned(queue[1..], now, window) else queue
  }

  /** What a poll that read `now` leaves in the queue, and what it decides. */
  function Polled(queue: seq<nat>, now: nat, l: Limits): (seq<nat>, Outcome) {
    var q := Pruned(queue, now, l.window);
    if |q| < l.maxRequests then (q + [now], Admitted)
    else if q == [] then (q, Panics)
    else
      var wait := l.window - Elapsed(now, q[0]);
      (q, if wait > l.maxWait then TooLong(RateLimitError(l.maxRequests, l.window, l.maxWait)) else Wait(wait))
  }

  /** The queue and the admissions after polls with these readings. */
  function Run(times: seq<nat>, l: Limits): (seq<nat>, seq<nat>) {
    if times == [] then ([], [])
    else
      var n := |times| - 1;
      var (queue, h) := Run(times[..n], l);
      var (queue', o) := Polled(queue, times[n], l);
      (queue', if o.Admitted? then h + [times[n]] else h)
  }

  function Admissions(times: seq<nat>, l: Limits): seq<nat> {
    Run(times, l).1
  }

  /** What one more poll decides. */
  function Decision(times: seq<nat>, now: nat, l: Limits): Outcome {
    Polled(Run(times, l).0, now, l).1
  }

  // ---------------------------------------------------------------- what the queue holds

  function Top(times: seq<nat>): (m: nat)
    ensures forall i :: 0 <= i < |times| ==> times[i] <= m
    ensures times != [] ==> m in times
  {
    if times == [] then 0
    else
      var n := |times| - 1;
      var m := Top(times[..n]);
      assert times == times[..n] + [times[n]];
      Later(times[n], m)
  }

  /** The queue is a suffix of the admissions; what is gone from it is a window older than some reading. */
  ghost predicate SuffixFine(queue: seq<nat>, h: seq<nat>, top: nat, window: nat) {
    && |queue| <= |h| && queue == h[|h| - |queue|..]
    && (forall i :: 0 <= i < |h| ==> h[i] <= top)
    && (forall i :: 0 <= i < |h| - |queue| ==> h[i] + window <= top)
  }

  ghost predicate QueueFine(queue: seq<nat>, h: seq<nat>, top: nat, l: Limits) {
    SuffixFine(queue, h, top, l.window) && |queue| <= l.maxRequests && (h != [] ==> queue != [])
  }

  lemma PrunedStep(queue: seq<nat>, now: nat, window: nat)
    ensures Pruned(queue, now, window) ==
            if queue != [] && !Younger(queue[0], now, window) then Pruned(queue[1..], now, window) else queue
  {
  }

  lemma SuffixOfSuffix(h: seq<nat>, n: nat, m: nat)
    requires m <= n <= |h|
    ensures h[|h| - n..][n - m..] == h[|h| - m..]
  {
  }

  /** Pruning pops from the front what is a window old at the reading. */
  lemma {:induction false} PrunedIsSuffix(queue: seq<nat>, now: nat, window: nat)
    ensures var r := Pruned(queue, now, window);
            && |r| <= |queue| && r == queue[|queue| - |r|..]
            && forall i :: 0 <= i < |queue| - |r| ==> !Younger(queue[i], now, window)
  {
    hide Pruned, Younger;
    PrunedStep(queue, now, window);
    if queue != [] && !Younger(queue[0], now, window) {
      var r := Pruned(queue, now, window);
      PrunedIsSuffix(queue[1..], now, window);
      SuffixOfSuffix(queue, |queue| - 1, |r|);
      forall i | 0 <= i < |queue| - |r|
        ensures !Younger(queue[i], now, window)
      {
        assert i > 0 ==> queue[i] == queue[1..][i - 1];
      }
    }
  }

  lemma {:induction false} PrunedIsShorter(queue: seq<nat>, now: nat, window: nat)
    ensures |Pruned(queue, now, window)| <= |queue|
  {
    hide Pruned;
    PrunedStep(queue, now, window);
    if queue != [] {
      PrunedIsShorter(queue[1..], now, window);
    }
  }

  function Later(a: nat, b: nat): nat {
    if a >= b then a else b
  }

  lemma PruningFine(queue: seq<nat>, h: seq<nat>, top: nat, now: nat, window: nat)
    requires SuffixFine(queue, h, top, window)
    ensures SuffixFine(Pruned(queue, now, window), h, Later(now, top), window)
  {
    hide Pruned;
    var q := Pruned(queue, now, window);
    PrunedIsSuffix(queue, now, window);
    SuffixOfSuffix(h, |queue|, |q|);
    var p := |h| - |queue|;
    forall i | 0 <= i < |h| - |q|
      ensures h[i] + window <= Later(now, top)
    {
      assert i >= p ==> queue[i - p] == h[i];
    }
  }

  lemma PushFine(queue: seq<nat>, h: seq<nat>, top: nat, now: nat, window: nat)
    requires SuffixFine(queue, h, top, window) && now <= top
    ensures SuffixFine(queue + [now], h + [now], top, window)
  {
    assert queue + [now] == (h + [now])[|h| - |queue|..];
  }

  lemma PollKeepsQueue(queue: seq<nat>, h: seq<nat>, top: nat, now: nat, l: Limits)
    requires QueueFine(queue, h, top, l)
    ensures var (queue', o) := Polled(queue, now, l);
            QueueFine(queue', if o.Admitted? then h + [now] else h, Later(now, top), l)
  {
    hide Pruned, SuffixFine;
    var q := Pruned(queue, now, l.window);
    PruningFine(queue, h, top, now, l.window);
    PrunedIsShorter(queue, now, l.window);
    PushFine(q, h, Later(now, top), now, l.window);
  }

  lemma {:induction false} RunKeepsQueue(times: seq<nat>, l: Limits)
    ensures var (queue, h) := Run(times, l); QueueFine(queue, h, Top(times), l)
  {
    if times != [] {
      var n := |times| - 1;
      RunKeepsQueue(times[..n], l);
      var (queue, h) := Run(times[..n], l);
      PollKeepsQueue(queue, h, Top(times[..n]), times[n], l);
      hide QueueFine, Polled;
    }
  }

  /** In every run, polls panic exactly if the maximum is zero. */
  lemma PanicsExactlyAtZero(times: seq<nat>, now: nat, l: Limits)
    ensures Decision(times, now, l).Panics? <==> l.maxRequests == 0
  {
    RunKeepsQueue(times, l);
  }

  // ---------------------------------------------------------------- how close admissions come

  /** How many admissions fall into the half-open interval. */
  function CountIn(h: seq<nat>, lo: nat, hi: nat): (n: nat)
    ensures n <= |h|
  {
    if h == [] then 0
    else CountIn(h[..|h| - 1], lo, hi) + (if lo <= h[|h| - 1] < hi then 1 else 0)
  }

  /** An admission is a whole window after all those `max` or more places before it, up to a slack. */
  predicate Spaced(h: seq<nat>, max: nat, window: nat, slack: nat) {
    forall i, j :: 0 <= i && i + max <= j < |h| ==> h[i] + window <= h[j] + slack
  }

  lemma {:induction false} CountInOlder(h: seq<nat>, lo: nat, hi: nat, m: nat)
    requires m <= |h| && forall i :: 0 <= i < m ==> h[i] < lo
    ensures CountIn(h, lo, hi) <= |h| - m
  {
    if m < |h| {
      CountInOlder(h[..|h| - 1], lo, hi, m);
    } else if m > 0 {
      CountInOlder(h[..|h| - 1], lo, hi, m - 1);
    }
  }

  /** Spaced admissions never crowd an interval a slack shorter than the window, wherever it starts. */
  lemma {:induction false} AtMostMaxPerWindow(h: seq<nat>, max: nat, window: nat, slack: nat, start: nat, len: nat)
    requires Spaced(h, max, window, slack) && len + slack <= window
    ensures CountIn(h, start, start + len) <= max
  {
    if h != [] {
      var n := |h| - 1;
      if start <= h[n] < start + len && n >= max {
        assert forall i :: 0 <= i <= n - max ==> h[i] + window <= h[n] + slack;
        CountInOlder(h, start, start + len, n - max + 1);
      } else {
        AtMostMaxPerWindow(h[..n], max, window, slack, start, len);
      }
    }
  }

  /** No reading is more than `lag` behind one that got the lock before. */
  predicate Lagging(times: seq<nat>, lag: nat) {
    forall i, j :: 0 <= i < j < |times| ==> times[i] <= times[j] + lag
  }

  lemma AdmissionKeepsSpacing(queue: seq<nat>, h: seq<nat>, top: nat, now: nat, l: Limits, lag: nat)
    requires QueueFine(queue, h, top, l) && Spaced(h, l.maxRequests, l.window, lag)
    requires top <= now + lag && Polled(queue, now, l).1.Admitted?
    ensures Spaced(h + [now], l.maxRequests, l.window, lag)
  {
    hide Polled;
    var h' := h + [now];
    PollKeepsQueue(queue, h, top, now, l);
    AdmittedQueueIsShort(queue, now, l);
    forall i, j | 0 <= i && i + l.maxRequests <= j < |h'|
      ensures h'[i] + l.window <= h'[j] + lag
    {
      if j < |h| {
        assert h[i] + l.window <= h[j] + lag;
      }
    }
  }

  /** The queue behind an admission holds at most the maximum, the new admission included. */
  lemma AdmittedQueueIsShort(queue: seq<nat>, now: nat, l: Limits)
    requires Polled(queue, now, l).1.Admitted?
    ensures |Polled(queue, now, l).0| <= l.maxRequests
  {
    hide Pruned;
  }

  lemma RunStep(times: seq<nat>, now: nat, l: Limits)
    ensures var (queue, h) := Run(times, l);
            var (queue', o) := Polled(queue, now, l);
            Run(times + [now], l) == (queue', if o.Admitted? then h + [now] else h)
  {
    assert (times + [now])[..|times|] == times;
  }

  lemma {:induction false} RunSpaced(times: seq<nat>, l: Limits, lag: nat)
    requires Lagging(times, lag)
    ensures Spaced(Admissions(times, l), l.maxRequests, l.window, lag)
  {
    if times != [] {
      var n := |times| - 1;
      RunSpaced(times[..n], l, lag);
      RunKeepsQueue(times[..n], l);
      var (queue, h) := Run(times[..n], l);
      hide Polled, QueueFine;
      if Polled(queue, times[n], l).1.Admitted? {
        AdmissionKeepsSpacing(queue, h, Top(times[..n]), times[n], l, lag);
      }
    }
  }

  /** In clock order, any half-open interval of the length of the window holds at most the maximum of
      admissions. */
  lemma RunNeverExceeds(times: seq<nat>, l: Limits, start: nat)
    requires Lagging(times, 0)
    ensures CountIn(Admissions(times, l), start, start + l.window) <= l.maxRequests
  {
    RunSpaced(times, l, 0);
    AtMostMaxPerWindow(Admissions(times, l), l.maxRequests, l.window, 0, start, l.window);
  }

  // ---------------------------------------------------------------- what readings out of order cost

  lemma SingleAdmission(queue: seq<nat>, h: seq<nat>, top: nat, now: nat, l: Limits)
    requires QueueFine(queue, h, top, l) && l.maxRequests == 1 && l.window > 0
    requires Polled(queue, now, l).1.Admitted? && h != []
    ensures h[|h| - 1] + l.window <= now
  {
    assert queue == [h[|h| - 1]];
    hide SuffixFine;
    PrunedStep(queue, now, l.window);
  }

  lemma SingleSnoc(h: seq<nat>, now: nat, window: nat)
    requires Spaced(h, 1, window, 0) && (h != [] ==> h[|h| - 1] + window <= now)
    ensures Spaced(h + [now], 1, window, 0)
  {
    forall i, j | 0 <= i && i + 1 <= j < |h| + 1
      ensures (h + [now])[i] + window <= (h + [now])[j]
    {
      if i < |h| - 1 {
        assert h[i] + window <= h[|h| - 1] + 0;
      }
    }
  }

  /** With a maximum of one, an admission is a window after the one before, whatever the order. */
  lemma {:induction false} SingleSpaced(times: seq<nat>, l: Limits)
    requires l.maxRequests == 1 && l.window > 0
    ensures Spaced(Admissions(times, l), 1, l.window, 0)
  {
    if times != [] {
      var n := |times| - 1;
      SingleSpaced(times[..n], l);
      RunKeepsQueue(times[..n], l);
      var (queue, h) := Run(times[..n], l);
      hide Polled, QueueFine;
      if Polled(queue, times[n], l).1.Admitted? && h != [] {
        SingleAdmission(queue, h, Top(times[..n]), times[n], l);
      }
      if Polled(queue, times[n], l).1.Admitted? {
        SingleSnoc(h, times[n], l.window);
      }
      hide Spaced;
    }
  }

  /** How much shorter than the window an interval must be. */
  function Cost(max: nat, lag: nat): nat {
    if max == 1 then 0 else lag
  }

  /** As many polls at zero as the maximum, one a window later, and one that read the clock earlier. */
  function Crowd(l: Limits, lag: nat): seq<nat> {
    seq(l.maxRequests, _ => 0) + [l.window] + [if l.window >= lag then l.window - lag else 0]
  }

  lemma NoRun(l: Limits)
    ensures Run([], l) == ([], [])
  {
  }

  lemma {:induction false} ZerosStay(queue: seq<nat>, window: nat)
    requires forall i :: 0 <= i < |queue| ==> queue[i] == 0
    ensures var q := Pruned(queue, 0, window); |q| <= |queue| && forall i :: 0 <= i < |q| ==> q[i] == 0
  {
    hide Pruned;
    PrunedStep(queue, 0, window);
    if queue != [] {
      ZerosStay(queue[1..], window);
    }
  }

  lemma {:induction false} Zeros(n: nat, l: Limits)
    requires n <= l.maxRequests
    ensures var (queue, h) := Run(seq(n, _ => 0), l);
            && h == seq(n, _ => 0) && |queue| <= n && forall i :: 0 <= i < |queue| ==> queue[i] == 0
  {
    hide Run, Pruned;
    if n == 0 {
      NoRun(l);
    } else {
      var zeros := seq(n - 1, _ => 0);
      Zeros(n - 1, l);
      assert seq(n, _ => 0) == zeros + [0];
      RunStep(zeros, 0, l);
      ZerosStay(Run(zeros, l).0, l.window);
    }
  }

  /** Once the window is over, the next poll has the queue to itself. */
  lemma {:induction false} ZerosPruned(queue: seq<nat>, window: nat)
    requires forall i :: 0 <= i < |queue| ==> queue[i] == 0
    ensures Pruned(queue, window, window) == []
  {
    hide Pruned;
    PrunedStep(queue, window, window);
    if queue != [] {
      ZerosPruned(queue[1..], window);
    }
  }

  lemma AfterZeros(queue: seq<nat>, l: Limits)
    requires l.maxRequests > 0 && forall i :: 0 <= i < |queue| ==> queue[i] == 0
    ensures Polled(queue, l.window, l) == ([l.window], Admitted)
  {
    hide Pruned;
    ZerosPruned(queue, l.window);
    assert [] + [l.window] == [l.window];
  }

  lemma SecondPlaceFree(t: nat, now: nat, l: Limits)
    requires l.maxRequests > 1
    ensures Polled([t], now, l).1.Admitted?
  {
    hide Pruned;
    PrunedIsShorter([t], now, l.window);
  }

  lemma CrowdAdmitted(l: Limits, lag: nat)
    requires l.maxRequests > 0
    ensures Lagging(Crowd(l, lag), lag)
    ensures seq(l.maxRequests, _ => 0) + [l.window] <= Admissions(Crowd(l, lag), l)
    ensures l.maxRequests > 1 ==> Admissions(Crowd(l, lag), l) == Crowd(l, lag)
  {
    hide Run, Polled;
    var zeros, late := seq(l.maxRequests, _ => 0), if l.window >= lag then l.window - lag else 0;
    Zeros(l.maxRequests, l);
    AfterZeros(Run(zeros, l).0, l);
    RunStep(zeros, l.window, l);
    RunStep(zeros + [l.window], late, l);
    if l.maxRequests > 1 {
      SecondPlaceFree(l.window, late, l);
    }
  }

  lemma {:induction false} CountInGrows(a: seq<nat>, b: seq<nat>, lo: nat, hi: nat)
    ensures CountIn(a + b, lo, hi) == CountIn(a, lo, hi) + CountIn(b, lo, hi)
  {
    if b == [] {
      assert a + b == a;
    } else {
      var n := |b| - 1;
      CountInGrows(a, b[..n], lo, hi);
      assert (a + b)[..|a + b| - 1] == a + b[..n];
    }
  }

  lemma {:induction false} AllCounted(h: seq<nat>, hi: nat)
    requires forall i :: 0 <= i < |h| ==> h[i] < hi
    ensures CountIn(h, 0, hi) == |h|
  {
    if h != [] {
      AllCounted(h[..|h| - 1], hi);
    }
  }

  predicate Crowded(h: seq<nat>, max: nat, start: nat, len: nat) {
    CountIn(h, start, start + len) > max
  }

  lemma CrowdExceeds(l: Limits, lag: nat, len: nat)
    requires l.maxRequests > 0 && len > 0 && len + Cost(l.maxRequests, lag) > l.window
    ensures Crowded(Admissions(Crowd(l, lag), l), l.maxRequests, 0, len)
  {
    hide Admissions, CountIn;
    var h, zeros := Admissions(Crowd(l, lag), l), seq(l.maxRequests, _ => 0);
    CrowdAdmitted(l, lag);
    AllCounted(zeros, len);
    CountInGrows(zeros, [l.window], 0, len);
    if l.maxRequests == 1 {
      AllCounted([l.window], len);
      assert h == zeros + [l.window] + h[2..];
      CountInGrows(zeros + [l.window], h[2..], 0, len);
    } else {
      var late := if l.window >= lag then l.window - lag else 0;
      AllCounted([late], len);
      CountInGrows(zeros + [l.window], [late], 0, len);
    }
  }

  ghost predicate NeverCrowded(l: Limits, lag: nat, len: nat) {
    forall times, start :: Lagging(times, lag) ==> !Crowded(Admissions(times, l), l.maxRequests, start, len)
  }

  /** When readings may be behind by a lag, the longest interval that never holds more admissions than the
      maximum is shorter than the window by exactly that lag, or not shorter at all if the maximum is one. */
  lemma LagCosts(l: Limits, lag: nat, len: nat)
    requires l.maxRequests > 0
    ensures NeverCrowded(l, lag, len) <==> len == 0 || len + Cost(l.maxRequests, lag) <= l.window
  {
    hide Admissions;
    if len == 0 || len + Cost(l.maxRequests, lag) <= l.window {
      forall times, start | Lagging(times, lag)
        ensures !Crowded(Admissions(times, l), l.maxRequests, start, len)
      {
        NotCrowded(times, l, lag, start, len);
      }
    } else {
      CrowdAdmitted(l, lag);
      CrowdExceeds(l, lag, len);
    }
  }

  lemma NotCrowded(times: seq<nat>, l: Limits, lag: nat, start: nat, len: nat)
    requires Lagging(times, lag) && (len == 0 || len + Cost(l.maxRequests, lag) <= l.window)
    ensures !Crowded(Admissions(times, l), l.maxRequests, start, len)
  {
    hide Admissions;
    var h := Admissions(times, l);
    if len == 0 {
      NoneCounted(h, start);
    } else if l.maxRequests == 1 {
      SingleSpaced(times, l);
      AtMostMaxPerWindow(h, 1, l.window, 0, start, len);
    } else {
      RunSpaced(times, l, lag);
      AtMostMaxPerWindow(h, l.maxRequests, l.window, lag, start, len);
    }
  }

  lemma {:induction false} NoneCounted(h: seq<nat>, start: nat)
    ensures CountIn(h, start, start) == 0
  {
    if h != [] {
      NoneCounted(h[..|h| - 1], start);
    }
  }

  // ---------------------------------------------------------------- clock order: the queue is forgotten

  predicate Ascending(h: seq<nat>) {
    forall i, j :: 0 <= i < j < |h| ==> h[i] <= h[j]
  }

  /** How many admissions are younger than the window. */
  function CountYounger(h: seq<nat>, now: nat, window: nat): (n: nat)
    ensures n <= |h|
  {
    if h == [] then 0
    else CountYounger(h[..|h| - 1], now, window) + (if Younger(h[|h| - 1], now, window) then 1 else 0)
  }

  /** The specification: what a poll at `now` decides, given every admission so far. */
  predicate Admits(h: seq<nat>, now: nat, max: nat, window: nat) {
    CountYounger(h, now, window) < max
  }

  lemma {:induction false} CountYoungerSplit(h: seq<nat>, k: nat, now: nat, window: nat)
    requires k <= |h|
    requires forall i :: 0 <= i < k ==> !Younger(h[i], now, window)
    requires forall i :: k <= i < |h| ==> Younger(h[i], now, window)
    ensures CountYounger(h, now, window) == |h| - k
  {
    if h != [] {
      var n := |h| - 1;
      CountYoungerSplit(h[..n], if k == |h| then n else k, now, window);
    }
  }

  function FirstYounger(h: seq<nat>, now: nat, window: nat): (k: nat)
    requires Ascending(h) && forall i :: 0 <= i < |h| ==> h[i] <= now
    ensures k <= |h|
    ensures forall i :: 0 <= i < k ==> !Younger(h[i], now, window)
    ensures forall i :: k <= i < |h| ==> Younger(h[i], now, window)
  {
    if h == [] || Younger(h[0], now, window) then 0 else 1 + FirstYounger(h[1..], now, window)
  }

  /** When exactly `max` admissions from index `k` on fill the window, the next place is free once
      the oldest of them is a window old, and not before. */
  lemma WaitIsExact(h: seq<nat>, k: nat, now: nat, max: nat, window: nat)
    requires Ascending(h) && (forall i :: 0 <= i < |h| ==> h[i] <= now)
    requires max > 0 && k + max == |h|
    requires forall i :: 0 <= i < k ==> !Younger(h[i], now, window)
    requires Younger(h[k], now, window)
    ensures forall later: nat :: later >= now ==> (Admits(h, later, max, window) <==> later >= h[k] + window)
  {
    forall later: nat | later >= now
      ensures Admits(h, later, max, window) <==> later >= h[k] + window
    {
      var j := FirstYounger(h, later, window);
      CountYoungerSplit(h, j, later, window);
    }
  }

  lemma AscendSnoc(h: seq<nat>, now: nat)
    requires Ascending(h) && forall i :: 0 <= i < |h| ==> h[i] <= now
    ensures Ascending(h + [now])
  {
  }

  lemma {:induction false} AdmissionsAscend(times: seq<nat>, l: Limits)
    requires Ascending(times)
    ensures Ascending(Admissions(times, l))
  {
    if times != [] {
      var n := |times| - 1;
      AdmissionsAscend(times[..n], l);
      RunKeepsQueue(times[..n], l);
      AscendSnoc(Admissions(times[..n], l), times[n]);
      hide Polled, Ascending;
    }
  }

  /** The pruned queue is what is younger than the window. */
  lemma QueueIsTheYounger(queue: seq<nat>, h: seq<nat>, top: nat, now: nat, l: Limits)
    requires QueueFine(queue, h, top, l) && Ascending(h) && top <= now
    ensures var q := Pruned(queue, now, l.window);
            && |q| <= |queue| && q == h[|h| - |q|..] && CountYounger(h, now, l.window) == |q|
            && forall i :: 0 <= i < |h| - |q| ==> !Younger(h[i], now, l.window)
  {
    hide Pruned, CountYounger;
    var q := Pruned(queue, now, l.window);
    PrunedIsSuffix(queue, now, l.window);
    forall i | 0 <= i < |h| - |q|
      ensures !Younger(h[i], now, l.window)
    {
      if i >= |h| - |queue| {
        assert h[i] == queue[i - (|h| - |queue|)];
      }
    }
    forall i | |h| - |q| <= i < |h|
      ensures Younger(h[i], now, l.window)
    {
      assert q[0] == h[|h| - |q|] <= h[i];
    }
    CountYoungerSplit(h, |h| - |q|, now, l.window);
  }

  /** In clock order, a poll is admitted exactly when the specification admits it. A refused one is told
      the exact time until a place is free: not one moment earlier would a poll be admitted. It is an error
      exactly when that time exceeds the maximal wait. */
  lemma DecidesByHistory(times: seq<nat>, now: nat, l: Limits)
    requires Ascending(times + [now]) && l.maxRequests > 0
    ensures var h, o := Admissions(times, l), Decision(times, now, l);
            && (o.Admitted? <==> Admits(h, now, l.maxRequests, l.window))
            && (o.Wait? ==>
                  && 0 < o.time <= l.window && o.time <= l.maxWait
                  && forall later: nat :: later >= now ==>
                       (Admits(h, later, l.maxRequests, l.window) <==> later >= now + o.time))
            && (o.TooLong? ==>
                  && l.maxWait < l.window && o.error == RateLimitError(l.maxRequests, l.window, l.maxWait)
                  && !Admits(h, now + l.maxWait, l.maxRequests, l.window))
  {
    hide CountYounger, Pruned, Run;
    var (queue, h) := Run(times, l);
    RunKeepsQueue(times, l);
    assert forall i :: 0 <= i < |times| ==> times[i] == (times + [now])[i] <= (times + [now])[|times|];
    AdmissionsAscend(times, l);
    QueueIsTheYounger(queue, h, Top(times), now, l);
    var q := Pruned(queue, now, l.window);
    if |q| >= l.maxRequests {
      assert q[0] == h[|h| - |q|];
      WaitIsExact(h, |h| - |q|, now, l.maxRequests, l.window);
    }
  }

  // ---------------------------------------------------------------- waiting for a place

  /** The polls of others that get the lock before one's own, and the reading of one's own. */
  datatype Round = Round(others: seq<nat>, now: nat)

  /** `Waiting` when the rounds are over and the call still sleeps. */
  datatype Acquisition = Acquired | Refused(error: RateLimitError) | Panicked | Waiting

  function AfterOthers(queue: seq<nat>, others: seq<nat>, l: Limits): seq<nat>
    decreases |others|
  {
    if others == [] then queue else AfterOthers(Polled(queue, others[0], l).0, others[1..], l)
  }

  function AcquiredOn(queue: seq<nat>, rounds: seq<Round>, l: Limits): (seq<nat>, Acquisition)
    decreases |rounds|
  {
    if rounds == [] then (queue, Waiting)
    else
      var (q, o) := Polled(AfterOthers(queue, rounds[0].others, l), rounds[0].now, l);
      match o
      case Admitted => (q, Acquired)
      case Wait(_) => AcquiredOn(q, rounds[1..], l)
      case TooLong(e) => (q, Refused(e))
      case Panics => (q, Panicked)
  }

  /** The polls of others are polls like any other: they leave the queue of the longer run. */
  lemma {:induction false} OthersPoll(times: seq<nat>, others: seq<nat>, l: Limits)
    ensures Run(times + others, l).0 == AfterOthers(Run(times, l).0, others, l)
    decreases |others|
  {
    hide Run, Polled;
    if others == [] {
      assert times + others == times;
    } else {
      RunStep(times, others[0], l);
      OthersPoll(times + [others[0]], others[1..], l);
      assert times + others == times + [others[0]] + others[1..];
    }
  }

  /** Whatever others do and however clocks are read, a call is refused only if the maximal wait is below
      the window. */
  lemma {:induction false} RefusedOnlyIfShort(queue: seq<nat>, rounds: seq<Round>, l: Limits)
    requires l.maxWait >= l.window
    ensures !AcquiredOn(queue, rounds, l).1.Refused?
    decreases |rounds|
  {
    hide Pruned;
    if rounds != [] {
      var (q, o) := Polled(AfterOthers(queue, rounds[0].others, l), rounds[0].now, l);
      if o.Wait? {
        RefusedOnlyIfShort(q, rounds[1..], l);
      }
    }
  }

  /** A poll that was told to wait is admitted, if nobody polls meanwhile, exactly when the front of the
      queue is a window old. The time it was told is exact unless it read the clock before that front did. */
  lemma WaitedPoll(queue: seq<nat>, now: nat, later: nat, l: Limits)
    requires |queue| <= l.maxRequests && Polled(queue, now, l).1.Wait?
    ensures var (q, o) := Polled(queue, now, l);
            && q != []
            && (Polled(q, later, l).1.Admitted? <==> later >= q[0] + l.window)
            && (now + o.time == q[0] + l.window <==> q[0] <= now)
  {
    PrunedIsSuffix(queue, now, l.window);
    var q := Polled(queue, now, l).0;
    PrunedIsSuffix(q, later, l.window);
    hide Pruned;
    var r := Pruned(q, later, l.window);
    assert |r| == |q| ==> r == q;
  }

  /** A call that reads the clock in order, sleeps as told and meets nobody between its two polls has its
      place at the second, or is refused at the first. */
  lemma AloneWithinTwoPolls(queue: seq<nat>, first: Round, later: nat, l: Limits)
    requires l.maxRequests > 0
    requires var q := AfterOthers(queue, first.others, l);
             && |q| <= l.maxRequests && (forall i :: 0 <= i < |q| ==> q[i] <= first.now)
             && var o := Polled(q, first.now, l).1; o.Wait? ==> later >= first.now + o.time
    ensures AcquiredOn(queue, [first, Round([], later)], l).1 in
              {Acquired, Refused(RateLimitError(l.maxRequests, l.window, l.maxWait))}
  {
    var q := AfterOthers(queue, first.others, l);
    var (q', o) := Polled(q, first.now, l);
    PrunedIsSuffix(q, first.now, l.window);
    hide Pruned;
    if o.Wait? {
      WaitedPoll(q, first.now, later, l);
      assert q'[0] == q[|q| - |q'|];
      assert [first, Round([], later)][1..] == [Round([], later)];
      assert AfterOthers(q', [], l) == q';
    }
  }

  // ---------------------------------------------------------------- the limiter as it runs

  const SECOND := 1_000_000_000

  class Limiter {
    const limits: Limits
    var timestamps: seq<nat>

    constructor (maxRequests: nat, window: nat, maxWait: nat)
      ensures limits == Limits(maxRequests, window, maxWait) && timestamps == []
    {
      limits, timestamps := Limits(maxRequests, window, maxWait), [];
    }

    constructor ForTier(tier: ModelTier)
      ensures limits.maxRequests == (match tier case Small => 60 case Medium => 30 case Large => 15)
      ensures limits.window == 600 * SECOND && limits.maxWait == limits.window && timestamps == []
    {
      var maxRequests := match tier case Small => 60 case Medium => 30 case Large => 15;
      limits, timestamps := Limits(maxRequests, 600 * SECOND, 600 * SECOND), [];
    }

    /** One poll under the lock, with the clock read before. */
    method Poll(now: nat) returns (o: Outcome)
      modifies this`timestamps
      ensures (timestamps, o) == Polled(old(timestamps), now, limits)
    {
      Prune(now);
      if |timestamps| < limits.maxRequests {
        timestamps := timestamps + [now];
        return Admitted;
      }
      if timestamps == [] {
        return Panics;
      }
      var wait := limits.window - Elapsed(now, timestamps[0]);
      if wait > limits.maxWait {
        return TooLong(RateLimitError(limits.maxRequests, limits.window, limits.maxWait));
      }
      return Wait(wait);
    }

    /** Drops from the front everything a window old or older. */
    method Prune(now: nat)
      modifies this`timestamps
      ensures timestamps == Pruned(old(timestamps), now, limits.window)
    {
      while timestamps != [] && Elapsed(now, timestamps[0]) >= limits.window
        invariant Pruned(timestamps, now, limits.window) == Pruned(old(timestamps), now, limits.window)
        decreases |timestamps|
      {
        timestamps := timestamps[1..];
      }
    }

    /** Polls until admitted or refused, sleeping after each poll that is told to; others poll meanwhile. */
    method Acquire(rounds: seq<Round>) returns (r: Acquisition)
      modifies this`timestamps
      ensures (timestamps, r) == AcquiredOn(old(timestamps), rounds, limits)
    {
      hide Polled, AfterOthers;
      var i := 0;
      while i < |rounds|
        invariant 0 <= i <= |rounds|
        invariant AcquiredOn(timestamps, rounds[i..], limits) == AcquiredOn(old(timestamps), rounds, limits)
      {
        Others(rounds[i].others);
        var o := Poll(rounds[i].now);
        assert rounds[i..][1..] == rounds[i + 1..];
        match o {
          case Admitted => return Acquired;
          case Wait(_) =>
          case TooLong(e) => return Refused(e);
          case Panics => return Panicked;
        }
        i := i + 1;
      }
      return Waiting;
    }

    method Others(others: seq<nat>)
      modifies this`timestamps
      ensures timestamps == AfterOthers(old(timestamps), others, limits)
    {
      hide Polled;
      for i := 0 to |others|
        invariant AfterOthers(timestamps, others[i..], limits) == AfterOthers(old(timestamps), others, limits)
      {
        assert others[i..][1..] == others[i + 1..];
        var _ := Poll(others[i]);
      }
    }
  }
}
