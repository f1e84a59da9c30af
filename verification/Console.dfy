/** The console forwarder: lines budgeted by the second, the overflow counted and reported. */
module ConsoleBudget {
  import opened Records

  const BUDGET := 200
  const WINDOW_MS := 1000
  const FLUSH_MS := 1100

  /** What was posted: a line carrying the drops before it, or a report of drops alone. */
  datatype Post = Line(at: int, dropped: nat) | Report(dropped: nat)

  /** The closure's variables, the timers running with their due times, and what came in
      and went out. `windows` is, for each line posted, the window it was counted in. */
  datatype Console = Console(
    windowStart: int, sent: nat, dropped: nat, flushTimer: Option<nat>,
    timers: map<nat, int>, nextTimer: nat, now: int,
    offered: nat, posts: seq<Post>, times: seq<int>, windows: seq<int>)

  datatype Step = Offers | Fires(timer: nat) | PageHides | Tick(ms: nat)

  function Start(now: nat): Console {
    Console(0, 0, 0, None, map[], 0, now, 0, [], [], [])
  }

  predicate Enabled(c: Console, t: Step) {
    t.Fires? ==> t.timer in c.timers && c.timers[t.timer] <= c.now
  }

  function NoteDropped(c: Console): Console {
    var noted := c.(dropped := c.dropped + 1);
    if c.flushTimer.Some? then noted
    else noted.(flushTimer := Some(c.nextTimer), timers := c.timers[c.nextTimer := c.now + FLUSH_MS],
                nextTimer := c.nextTimer + 1)
  }

  function FlushDropped(c: Console): Console {
    if c.dropped == 0 then c.(flushTimer := None)
    else c.(flushTimer := None, dropped := 0, posts := c.posts + [Report(c.dropped)])
  }

  /** A window that is over gives way to one starting now. */
  function Renewed(c: Console): Console {
    if c.now - c.windowStart >= WINDOW_MS then c.(windowStart := c.now, sent := 0) else c
  }

  function Posted(c: Console): Console {
    c.(sent := c.sent + 1, dropped := 0, posts := c.posts + [Line(c.now, c.dropped)],
       times := c.times + [c.now], windows := c.windows + [c.windowStart])
  }

  function Offered(c: Console): Console {
    var r := Renewed(c).(offered := c.offered + 1);
    if r.sent >= BUDGET then NoteDropped(r) else Posted(r)
  }

  /** `pagehide` flushes too, and leaves the timer running. */
  function Do(c: Console, t: Step): Console
    requires Enabled(c, t)
  {
    match t
    case Offers => Offered(c)
    case Fires(id) => FlushDropped(c.(timers := c.timers - {id}))
    case PageHides => FlushDropped(c)
    case Tick(ms) => c.(now := c.now + ms)
  }

  ghost predicate Runs(c: Console, steps: seq<Step>, end: Console)
    decreases |steps|
  {
    if steps == [] then end == c else Enabled(c, steps[0]) && Runs(Do(c, steps[0]), steps[1..], end)
  }

  // ---- Every line is accounted for ---------------------------------------------

  function Lines(posts: seq<Post>): nat {
    if posts == [] then 0 else Lines(posts[..|posts| - 1]) + (if posts[|posts| - 1].Line? then 1 else 0)
  }

  function Reported(posts: seq<Post>): nat {
    if posts == [] then 0 else Reported(posts[..|posts| - 1]) + posts[|posts| - 1].dropped
  }

  lemma PostsNext(posts: seq<Post>, p: Post)
    ensures Lines(posts + [p]) == Lines(posts) + (if p.Line? then 1 else 0)
    ensures Reported(posts + [p]) == Reported(posts) + p.dropped
  {
    assert (posts + [p])[..|posts|] == posts;
  }

  ghost predicate Accounted(c: Console) {
    c.offered == Lines(c.posts) + Reported(c.posts) + c.dropped && |c.times| == Lines(c.posts)
  }

  lemma AccountedKept(c: Console, t: Step)
    requires Enabled(c, t) && Accounted(c)
    ensures Accounted(Do(c, t))
  {
    PostsNext(c.posts, Line(c.now, c.dropped));
    PostsNext(c.posts, Report(c.dropped));
  }

  /** The flush timer named is running, and drops outstanding have one. */
  ghost predicate Timed(c: Console) {
    && (c.dropped > 0 ==> c.flushTimer.Some?)
    && (c.flushTimer.Some? ==> c.flushTimer.value in c.timers)
    && forall id <- c.timers :: id < c.nextTimer && c.timers[id] <= c.now + FLUSH_MS
  }

  lemma TimedKept(c: Console, t: Step)
    requires Enabled(c, t) && Timed(c)
    ensures Timed(Do(c, t))
  {
  }

  // ---- No interval carries more than two windows' worth ------------------------

  ghost predicate Budgeted(c: Console) {
    var n := |c.windows|;
    && |c.times| == n && c.sent <= BUDGET && c.sent <= n && c.windowStart <= c.now
    && (forall i :: n - c.sent <= i < n ==> c.windows[i] == c.windowStart)
    && (forall i :: 0 <= i < n - c.sent ==> c.windows[i] + WINDOW_MS <= c.windowStart)
  }

  ghost predicate Spaced(c: Console) {
    && |c.times| == |c.windows|
    && (forall i :: 0 <= i < |c.times| ==> c.windows[i] <= c.times[i] < c.windows[i] + WINDOW_MS && c.times[i] <= c.now)
    && (forall i, j :: 0 <= i && j == i + BUDGET < |c.windows| ==> c.windows[i] + WINDOW_MS <= c.windows[j])
  }

  lemma BudgetedKept(c: Console, t: Step)
    requires Enabled(c, t) && Budgeted(c)
    ensures Budgeted(Do(c, t))
  {
    if t.Offers? { RenewedKept(c); }
  }

  lemma RenewedKept(c: Console)
    requires Budgeted(c)
    ensures Budgeted(Renewed(c))
  {
  }

  lemma PostedSpaced(c: Console)
    requires Budgeted(c) && Spaced(c) && c.sent < BUDGET && c.now < c.windowStart + WINDOW_MS
    ensures Spaced(Posted(c))
  {
  }

  lemma SameLinesSpaced(c: Console, d: Console)
    requires Spaced(c) && d.times == c.times && d.windows == c.windows && c.now <= d.now
    ensures Spaced(d)
  {
  }

  lemma OfferSpaced(r: Console)
    requires Budgeted(r) && Spaced(r) && r.now < r.windowStart + WINDOW_MS
    ensures Spaced(if r.sent >= BUDGET then NoteDropped(r) else Posted(r))
  {
    if r.sent < BUDGET { PostedSpaced(r); } else { SameLinesSpaced(r, NoteDropped(r)); }
  }

  lemma SpacedKept(c: Console, t: Step)
    requires Enabled(c, t) && Spaced(c) && (t.Offers? ==> Budgeted(Renewed(c).(offered := c.offered + 1)))
    ensures Spaced(Do(c, t))
  {
    if t.Offers? {
      var r := Renewed(c).(offered := c.offered + 1);
      SameLinesSpaced(c, r);
      OfferSpaced(r);
    } else {
      SameLinesSpaced(c, Do(c, t));
    }
  }

  ghost predicate InOrder(c: Console) {
    forall i, j :: 0 <= i <= j < |c.times| ==> c.times[i] <= c.times[j] <= c.now
  }

  lemma InOrderKept(c: Console, t: Step)
    requires Enabled(c, t) && InOrder(c)
    ensures InOrder(Do(c, t))
  {
  }

  ghost predicate Inv(c: Console) {
    Accounted(c) && Timed(c) && Budgeted(c) && Spaced(c) && InOrder(c)
  }

  lemma InvKept(c: Console, t: Step)
    requires Enabled(c, t) && Inv(c)
    ensures Inv(Do(c, t))
  {
    AccountedKept(c, t); TimedKept(c, t); BudgetedKept(c, t);
    RenewedKept(c); SpacedKept(c, t); InOrderKept(c, t);
  }

  lemma {:induction false} RunsKeepInv(c: Console, steps: seq<Step>, end: Console)
    requires Inv(c) && Runs(c, steps, end)
    ensures Inv(end)
    decreases |steps|
  {
    if steps != [] {
      InvKept(c, steps[0]);
      RunsKeepInv(Do(c, steps[0]), steps[1..], end);
    }
  }

  /** Every line offered was posted, has been reported as dropped, or is still to be. */
  lemma EveryLineIsCounted(now: nat, steps: seq<Step>, c: Console)
    requires Runs(Start(now), steps, c)
    ensures c.offered == Lines(c.posts) + Reported(c.posts) + c.dropped
  {
    RunsKeepInv(Start(now), steps, c);
  }

  /** Drops outstanding always have a running flush timer due within its delay, after a
      `pagehide` as before; and when it fires they are reported. */
  lemma DropsGetReported(now: nat, steps: seq<Step>, c: Console)
    requires Runs(Start(now), steps, c) && c.dropped > 0
    ensures c.flushTimer.Some? && c.flushTimer.value in c.timers
    ensures var due := c.timers[c.flushTimer.value];
            && due <= c.now + FLUSH_MS
            && (due <= c.now ==> Do(c, Fires(c.flushTimer.value)).posts == c.posts + [Report(c.dropped)])
  {
    RunsKeepInv(Start(now), steps, c);
  }

  /** They need not wait for it: a page that is hidden, or the next line that goes through,
      takes them all along. */
  lemma DropsGoWithTheNext(now: nat, steps: seq<Step>, c: Console)
    requires Runs(Start(now), steps, c)
    ensures var f := Do(c, PageHides);
            f.dropped == 0 && f.posts == c.posts + (if c.dropped > 0 then [Report(c.dropped)] else [])
    ensures var f := Do(c, Offers);
            |f.posts| > |c.posts| ==> f.dropped == 0 && f.posts == c.posts + [Line(c.now, c.dropped)]
  {
  }

  /** The first drop outstanding starts the one timer that will report it, a flush delay later; the
      drops after it start none and put nothing off. */
  lemma FirstDropSetsTimer(c: Console)
    requires Do(c, Offers).posts == c.posts
    ensures var f := Do(c, Offers);
            if c.flushTimer.Some? then f.flushTimer == c.flushTimer && f.timers == c.timers
            else f.flushTimer.Some? && f.timers == c.timers[f.flushTimer.value := c.now + FLUSH_MS]
  {
  }

  /** A line is dropped only when a whole budget of lines went out within the second before. */
  lemma DropsOnlyOverBudget(now: nat, steps: seq<Step>, c: Console)
    requires Runs(Start(now), steps, c)
    ensures var f := Do(c, Offers);
            && ((f.dropped == c.dropped + 1 && f.posts == c.posts) || |f.posts| == |c.posts| + 1)
            && (f.posts == c.posts ==>
                  |c.times| >= BUDGET && c.now - c.times[|c.times| - BUDGET] < WINDOW_MS)
  {
    RunsKeepInv(Start(now), steps, c);
    if c.sent >= BUDGET { assert c.windows[|c.times| - BUDGET] == c.windowStart; }
  }

  lemma {:induction false} WindowsApart(c: Console, i: nat, j: nat)
    requires Budgeted(c) && Spaced(c) && i + 2 * BUDGET == j < |c.windows|
    ensures c.windows[i] + 2 * WINDOW_MS <= c.windows[j]
  {
    var mid := i + BUDGET;
    assert c.windows[i] + WINDOW_MS <= c.windows[mid] && c.windows[mid] + WINDOW_MS <= c.windows[j];
  }

  /** Of the lines posted, in order, two that are two budgets apart are more than a second
      apart, whatever the clock started at: no closed interval of one second carries more
      than 400 lines. */
  lemma AtMostTwoBudgets(now: nat, steps: seq<Step>, c: Console, i: nat, j: nat)
    requires Runs(Start(now), steps, c) && i + 2 * BUDGET <= j < |c.times|
    ensures |c.times| == Lines(c.posts)
    ensures c.times[j] - c.times[i] > WINDOW_MS
  {
    RunsKeepInv(Start(now), steps, c);
    WindowsApart(c, i, i + 2 * BUDGET);
    assert c.times[i + 2 * BUDGET] <= c.times[j];
  }

  // ---- With a real clock -----------------------------------------------------------

  /** A window begins with a line: the first one in it carries its very time, and any other
      is followed by less than a budget before the next window. */
  ghost predicate Anchored(c: Console) {
    && |c.times| == |c.windows|
    && (c.sent == 0 ==> c.windowStart + WINDOW_MS <= c.now)
    && (c.sent > 0 ==> c.sent <= |c.times| && c.times[|c.times| - c.sent] == c.windowStart)
    && (forall i, j :: 0 <= i && j == i + BUDGET - 1 < |c.windows| ==>
          c.windows[i] + WINDOW_MS <= c.windows[j] || c.times[i] == c.windows[i])
  }

  ghost predicate Ordered(c: Console) {
    forall i, j :: 0 <= i <= j < |c.windows| ==> c.windows[i] <= c.windows[j]
  }

  lemma OrderedKept(c: Console, t: Step)
    requires Enabled(c, t) && Budgeted(c) && Ordered(c)
    ensures Ordered(Do(c, t))
  {
    if t.Offers? {
      RenewedKept(c);
      assert forall i :: 0 <= i < |c.windows| ==> c.windows[i] <= Renewed(c).windowStart;
    }
  }

  lemma PostedAnchored(c: Console)
    requires Budgeted(c) && Anchored(c) && 0 < c.sent < BUDGET
    ensures Anchored(Posted(c))
  {
    var n := |c.windows|;
    if n >= BUDGET - 1 {
      var i := n - (BUDGET - 1);
      assert i < n - c.sent || i == n - c.sent;
    }
  }

  lemma FirstAnchored(c: Console)
    requires Budgeted(c) && Anchored(c) && c.sent <= |c.times| && c.now - c.windowStart >= WINDOW_MS
    ensures Anchored(Posted(Renewed(c)))
  {
    RenewedKept(c);
    var r := Renewed(c);
    assert forall i :: 0 <= i < |c.windows| ==> c.windows[i] + WINDOW_MS <= r.windowStart;
  }

  lemma SameLinesAnchored(c: Console, d: Console)
    requires Anchored(c) && d.times == c.times && d.windows == c.windows && c.now <= d.now
    requires d.sent == c.sent && d.windowStart == c.windowStart
    ensures Anchored(d)
  {
  }

  lemma OfferAnchored(d: Console)
    requires Budgeted(d) && Anchored(d)
    ensures var r := Renewed(d); Anchored(if r.sent >= BUDGET then NoteDropped(r) else Posted(r))
  {
    if d.now - d.windowStart >= WINDOW_MS {
      FirstAnchored(d);
    } else if d.sent < BUDGET {
      PostedAnchored(d);
    } else {
      SameLinesAnchored(d, NoteDropped(d));
    }
  }

  lemma AnchoredKept(c: Console, t: Step)
    requires Enabled(c, t) && Anchored(c) && Budgeted(c.(offered := c.offered + 1))
    ensures Anchored(Do(c, t))
  {
    if t.Offers? {
      var d := c.(offered := c.offered + 1);
      SameLinesAnchored(c, d);
      OfferAnchored(d);
      assert Renewed(d) == Renewed(c).(offered := c.offered + 1);
    } else {
      SameLinesAnchored(c, Do(c, t));
    }
  }

  lemma SameBudget(c: Console)
    requires Budgeted(c)
    ensures Budgeted(c.(offered := c.offered + 1))
  {
  }

  lemma {:induction false} RunsKeepAnchored(c: Console, steps: seq<Step>, end: Console)
    requires Inv(c) && Anchored(c) && Ordered(c) && Runs(c, steps, end)
    ensures Inv(end) && Anchored(end) && Ordered(end)
    decreases |steps|
  {
    if steps != [] {
      SameBudget(c); AnchoredKept(c, steps[0]); OrderedKept(c, steps[0]); InvKept(c, steps[0]);
      RunsKeepAnchored(Do(c, steps[0]), steps[1..], end);
    }
  }

  /** With a clock past its first second, as any wall clock is: of the lines posted, two that
      are one short of two budgets apart are a second apart, so that no half-open second
      carries more than 399 lines. */
  lemma AtMostOneShortOfTwoBudgets(now: nat, steps: seq<Step>, c: Console, i: nat, j: nat)
    requires WINDOW_MS <= now && Runs(Start(now), steps, c) && i + 2 * BUDGET - 1 <= j < |c.times|
    ensures c.times[j] - c.times[i] >= WINDOW_MS
  {
    RunsKeepAnchored(Start(now), steps, c);
    var last, mid := i + 2 * BUDGET - 1, i + BUDGET - 1;
    assert c.times[last] <= c.times[j] && c.windows[last] <= c.times[last];
    assert c.windows[mid] + WINDOW_MS <= c.windows[last];
    if c.times[i] == c.windows[i] {
      assert c.windows[i] + WINDOW_MS <= c.windows[i + BUDGET];
      assert c.windows[i + BUDGET] <= c.windows[last];
    }
  }

  function Burst(n: nat): seq<Step> { seq(n, _ => Offers) }

  lemma {:induction false} RunsAppend(c: Console, a: seq<Step>, mid: Console, b: seq<Step>, end: Console)
    requires Runs(c, a, mid) && Runs(mid, b, end)
    ensures Runs(c, a + b, end)
    decreases |a|
  {
    if a == [] { assert a + b == b; }
    else {
      assert (a + b)[1..] == a[1..] + b;
      RunsAppend(Do(c, a[0]), a[1..], mid, b, end);
    }
  }

  /** Within a window, offers go through until its budget is used up. */
  lemma {:induction false} BurstGoesThrough(c: Console, n: nat) returns (end: Console)
    requires c.sent + n <= BUDGET && c.dropped == 0 && c.now < c.windowStart + WINDOW_MS
    ensures Runs(c, Burst(n), end)
    ensures end.windowStart == c.windowStart && end.now == c.now && end.dropped == 0
    ensures |end.times| == |c.times| + n && c.times <= end.times
    ensures forall i :: |c.times| <= i < |end.times| ==> end.times[i] == c.now
    decreases n
  {
    if n == 0 { end := c; }
    else {
      end := BurstGoesThrough(Do(c, Offers), n - 1);
      assert Burst(n)[1..] == Burst(n - 1);
    }
  }

  lemma RunsOne(c: Console, t: Step)
    requires Enabled(c, t)
    ensures Runs(c, [t], Do(c, t))
  {
    assert [t][1..] == [] && Runs(Do(c, t), [], Do(c, t));
  }

  /** One line opens a window; the rest of its budget comes at its end, and the next budget a
      millisecond later. */
  function TightRun(): seq<Step> {
    [Offers] + ([Tick(WINDOW_MS - 1)] + (Burst(BUDGET - 1) + ([Tick(1)] + FullBurst())))
  }

  function FullBurst(): seq<Step> { [Offers] + Burst(BUDGET - 1) }

  lemma OpensWindow(c: Console) returns (end: Console)
    requires c.now - c.windowStart >= WINDOW_MS && c.dropped == 0
    ensures Runs(c, FullBurst(), end)
    ensures |end.times| == |c.times| + BUDGET && c.times <= end.times
    ensures forall i :: |c.times| <= i < |end.times| ==> end.times[i] == c.now
  {
    var next := Do(c, Offers);
    end := BurstGoesThrough(next, BUDGET - 1);
    RunsOne(c, Offers);
    RunsAppend(c, [Offers], next, Burst(BUDGET - 1), end);
    assert forall i :: 0 <= i < |c.times| ==> end.times[i] == next.times[i] == c.times[i];
    assert end.times[|c.times|] == next.times[|c.times|] == c.now;
  }

  /** Both bounds are met, from any such clock: 400 lines in a closed second, 399 of them in
      its last two milliseconds. */
  lemma BudgetIsTight(now: nat) returns (c: Console)
    requires WINDOW_MS <= now
    ensures Runs(Start(now), TightRun(), c) && |c.times| == 2 * BUDGET
    ensures c.times[0] == now
    ensures forall i :: 0 < i < BUDGET ==> c.times[i] == now + WINDOW_MS - 1
    ensures forall i :: BUDGET <= i < 2 * BUDGET ==> c.times[i] == now + WINDOW_MS
  {
    var c1, c2, c3, c4, last := TightStates(now);
    c := last;
    RunsAppend(c3, [Tick(1)], c4, FullBurst(), c);
    RunsAppend(c2, Burst(BUDGET - 1), c3, [Tick(1)] + FullBurst(), c);
    RunsAppend(c1, [Tick(WINDOW_MS - 1)], c2, Burst(BUDGET - 1) + ([Tick(1)] + FullBurst()), c);
    RunsAppend(Start(now), [Offers], c1, [Tick(WINDOW_MS - 1)] + (Burst(BUDGET - 1) + ([Tick(1)] + FullBurst())), c);
  }

  lemma TightStates(now: nat) returns (c1: Console, c2: Console, c3: Console, c4: Console, c: Console)
    requires WINDOW_MS <= now
    ensures Runs(Start(now), [Offers], c1) && Runs(c1, [Tick(WINDOW_MS - 1)], c2) && Runs(c2, Burst(BUDGET - 1), c3)
    ensures Runs(c3, [Tick(1)], c4) && Runs(c4, FullBurst(), c)
    ensures |c.times| == 2 * BUDGET && c.times[0] == now
    ensures forall i :: 0 < i < BUDGET ==> c.times[i] == now + WINDOW_MS - 1
    ensures forall i :: BUDGET <= i < 2 * BUDGET ==> c.times[i] == now + WINDOW_MS
  {
    c1 := Do(Start(now), Offers);
    RunsOne(Start(now), Offers);
    c2 := Do(c1, Tick(WINDOW_MS - 1));
    RunsOne(c1, Tick(WINDOW_MS - 1));
    c3 := BurstGoesThrough(c2, BUDGET - 1);
    c4 := Do(c3, Tick(1));
    RunsOne(c3, Tick(1));
    c := OpensWindow(c4);
    assert c1.times == [now] && c3.times[0] == c2.times[0] && c.times[0] == c4.times[0];
    forall i | 0 < i < BUDGET ensures c.times[i] == now + WINDOW_MS - 1 {
      assert c.times[i] == c4.times[i] == c3.times[i];
    }
  }
}

/** The closure's variables, updated in place. */
module ConsoleForwarders {
  import opened Records
  import opened ConsoleBudget

  class ConsoleForwarder {
    var windowStart: int
    var sent: nat
    var dropped: nat
    var flushTimer: Option<nat>
    var timers: map<nat, int>
    var nextTimer: nat
    var now: int
    var posts: seq<Post>
    ghost var offered: nat
    ghost var times: seq<int>
    ghost var windows: seq<int>

    ghost function Model(): Console
      reads this
    {
      Console(windowStart, sent, dropped, flushTimer, timers, nextTimer, now, offered, posts, times, windows)
    }

    constructor (clock: nat)
      ensures Model() == Start(clock)
    {
      windowStart, sent, dropped, flushTimer := 0, 0, 0, None;
      timers, nextTimer, now, offered, posts, times, windows := map[], 0, clock, 0, [], [], [];
    }

    method Note()
      modifies this`dropped, this`flushTimer, this`timers, this`nextTimer
      ensures Model() == NoteDropped(old(Model()))
    {
      dropped := dropped + 1;
      if flushTimer == None {
        flushTimer := Some(nextTimer);
        timers := timers[nextTimer := now + FLUSH_MS];
        nextTimer := nextTimer + 1;
      }
    }

    method Flush()
      modifies this`dropped, this`flushTimer, this`posts
      ensures Model() == FlushDropped(old(Model()))
    {
      flushTimer := None;
      if dropped == 0 { return; }
      var n := dropped;
      dropped := 0;
      posts := posts + [Report(n)];
    }

    method Forward()
      modifies this
      ensures Model() == Offered(old(Model()))
    {
      var t := now;
      offered := offered + 1;
      if t - windowStart >= WINDOW_MS {
        windowStart, sent := t, 0;
      }
      if sent >= BUDGET {
        Note();
        return;
      }
      sent := sent + 1;
      posts := posts + [Line(t, dropped)];
      times, windows := times + [t], windows + [windowStart];
      if dropped > 0 { dropped := 0; }
    }
  }
}
