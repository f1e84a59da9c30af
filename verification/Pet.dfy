/** The snapshot behind the pet's ambient state, updated event by event, and what it means
    in terms of the whole history of events. */
module PetStates {

  datatype ConnectionStatus = Prompting | Connected | Connecting | Erring | Disconnected

  datatype Payload =
    | StatusChanged(status: ConnectionStatus)
    | ErrorRaised
    | PermissionRequest(request: string)
    | PermissionResolved(request: string)
    | TurnComplete
    | DelegationStarted(child: string)
    | DelegationCompleted(child: string)
    | ConversationStatusChanged
    | Unrelated

  /** An envelope: the connection it came over, and what it says. */
  datatype Event = Event(conn: string, payload: Payload)

  datatype PetState = Idle | Waiting | Running | Failed

  datatype Snapshot = Snapshot(
    prompting: set<string>, erroring: set<string>, pending: map<string, string>, children: set<string>)

  const EMPTY := Snapshot({}, {}, map[], {})

  function Without(pending: map<string, string>, conn: string): map<string, string> {
    map r | r in pending && pending[r] != conn :: pending[r]
  }

  /** Everything recorded for a connection, dropped. */
  function Scrub(s: Snapshot, conn: string): Snapshot {
    s.(prompting := s.prompting - {conn}, erroring := s.erroring - {conn}, pending := Without(s.pending, conn))
  }

  function ApplyStatus(s: Snapshot, conn: string, status: ConnectionStatus): Snapshot {
    match status
    case Prompting => s.(prompting := s.prompting + {conn}, erroring := s.erroring - {conn})
    case Connected => s.(prompting := s.prompting - {conn}, erroring := s.erroring - {conn})
    case Connecting => s.(prompting := s.prompting - {conn}, erroring := s.erroring - {conn})
    case Erring => s.(erroring := s.erroring + {conn}, prompting := s.prompting - {conn})
    case Disconnected => Scrub(s, conn)
  }

  /** A session's own event: one from a connection that is no sub-agent. */
  function ApplyOwn(s: Snapshot, e: Event): Snapshot {
    match e.payload
    case StatusChanged(status) => ApplyStatus(s, e.conn, status)
    case ErrorRaised => s.(erroring := s.erroring + {e.conn})
    case PermissionRequest(r) => s.(pending := s.pending[r := e.conn])
    case PermissionResolved(r) => s.(pending := s.pending - {r})
    case TurnComplete => s.(prompting := s.prompting - {e.conn}, pending := Without(s.pending, e.conn))
    case _ => s
  }

  function Apply(s: Snapshot, e: Event): Snapshot {
    match e.payload
    case DelegationStarted(child) => Scrub(s, child).(children := s.children + {child})
    case DelegationCompleted(child) => Scrub(s, child).(children := s.children - {child})
    case _ =>
      if e.conn !in s.children then ApplyOwn(s, e)
      else if e.payload == StatusChanged(Disconnected) then s.(children := s.children - {e.conn})
      else s
  }

  function AfterOverrun(s: Snapshot): Snapshot {
    Snapshot({}, {}, map[], s.children)
  }

  function Compute(s: Snapshot): PetState {
    if s.erroring != {} then Failed
    else if s.pending != map[] then Waiting
    else if s.prompting != {} then Running
    else Idle
  }

  // ---- No sub-agent drives the pet ---------------------------------------------

  /** What happens to the snapshot: an event, a bus overrun, or the failure timer. */
  datatype Item = Seen(event: Event) | Overrun | Recovered

  function Advance(s: Snapshot, item: Item): Snapshot {
    match item
    case Seen(e) => Apply(s, e)
    case Overrun => AfterOverrun(s)
    case Recovered => s.(erroring := {})
  }

  function After(h: seq<Item>, n: nat): Snapshot
    requires n <= |h|
  {
    if n == 0 then EMPTY else Advance(After(h, n - 1), h[n - 1])
  }

  predicate ChildrenExcluded(s: Snapshot) {
    && s.prompting !! s.children
    && s.erroring !! s.children
    && forall r <- s.pending :: s.pending[r] !in s.children
  }

  lemma {:induction false} NoSubAgentCounts(h: seq<Item>, n: nat)
    requires n <= |h|
    ensures ChildrenExcluded(After(h, n))
  {
    if n > 0 { NoSubAgentCounts(h, n - 1); }
  }

  // ---- What the history says ---------------------------------------------------

  /** Something was set, and has not been cleared since. */
  ghost predicate Stands(sets: int -> bool, clears: int -> bool, n: int) {
    exists i :: 0 <= i < n && sets(i) && forall j :: i < j < n ==> !clears(j)
  }

  lemma StandsNext(sets: int -> bool, clears: int -> bool, n: nat)
    ensures Stands(sets, clears, n + 1) <==> sets(n) || (Stands(sets, clears, n) && !clears(n))
  {
    if sets(n) {
      assert forall j :: n < j < n + 1 ==> !clears(j);
    } else if Stands(sets, clears, n) && !clears(n) {
      var i :| 0 <= i < n && sets(i) && forall j :: i < j < n ==> !clears(j);
      assert forall j :: i < j < n + 1 ==> !clears(j);
    }
  }

  predicate Says(h: seq<Item>, i: int, conn: string, p: Payload) {
    0 <= i < |h| && h[i] == Seen(Event(conn, p))
  }

  predicate Overran(h: seq<Item>, i: int) { 0 <= i < |h| && h[i].Overrun? }

  predicate Starts(h: seq<Item>, i: int, child: string) {
    0 <= i < |h| && h[i].Seen? && h[i].event.payload == DelegationStarted(child)
  }

  /** A delegation of this child starts or ends, whoever announces it. */
  predicate Delegates(h: seq<Item>, i: int, child: string) {
    Starts(h, i, child) || (0 <= i < |h| && h[i].Seen? && h[i].event.payload == DelegationCompleted(child))
  }

  ghost function StartsOf(h: seq<Item>, child: string): int -> bool {
    i => Starts(h, i, child)
  }

  ghost function EndsOf(h: seq<Item>, child: string): int -> bool {
    i => Delegates(h, i, child) || Says(h, i, child, StatusChanged(Disconnected))
  }

  /** A sub-agent: a delegation of it started, and neither ended nor did it disconnect since. */
  ghost predicate IsSubAgent(h: seq<Item>, n: int, conn: string) {
    Stands(StartsOf(h, conn), EndsOf(h, conn), n)
  }

  /** Prompting: a session said so, and has not said otherwise, ended its turn, turned out to
      be a sub-agent or been lost in an overrun since. */
  ghost function PromptsOf(h: seq<Item>, conn: string): int -> bool {
    i => Says(h, i, conn, StatusChanged(Prompting)) && !IsSubAgent(h, i, conn)
  }

  ghost function EndsPrompt(h: seq<Item>, conn: string): int -> bool {
    i => Overran(h, i) || Delegates(h, i, conn) || Says(h, i, conn, TurnComplete)
         || (0 <= i < |h| && h[i].Seen? && h[i].event.conn == conn && h[i].event.payload.StatusChanged?
             && h[i].event.payload.status != Prompting)
  }

  ghost predicate IsPrompting(h: seq<Item>, n: int, conn: string) {
    Stands(PromptsOf(h, conn), EndsPrompt(h, conn), n)
  }

  /** Erring: a session reported an error, and neither a better status nor the recovery timer
      came since. */
  ghost function ErrorsOf(h: seq<Item>, conn: string): int -> bool {
    i => (Says(h, i, conn, ErrorRaised) || Says(h, i, conn, StatusChanged(Erring))) && !IsSubAgent(h, i, conn)
  }

  ghost function EndsError(h: seq<Item>, conn: string): int -> bool {
    i => Overran(h, i) || Delegates(h, i, conn) || (0 <= i < |h| && h[i].Recovered?)
         || (0 <= i < |h| && h[i].Seen? && h[i].event.conn == conn && h[i].event.payload.StatusChanged?
             && h[i].event.payload.status != Erring)
  }

  ghost predicate IsErring(h: seq<Item>, n: int, conn: string) {
    Stands(ErrorsOf(h, conn), EndsError(h, conn), n)
  }

  /** Awaiting an answer: a session asked, and neither its turn nor its connection ended, and
      no session's answer to, or own use of, that request id came since. */
  ghost function AsksOf(h: seq<Item>, request: string, conn: string): int -> bool {
    i => Says(h, i, conn, PermissionRequest(request)) && !IsSubAgent(h, i, conn)
  }

  ghost function EndsAsk(h: seq<Item>, request: string, conn: string): int -> bool {
    i => Overran(h, i) || Delegates(h, i, conn) || Says(h, i, conn, TurnComplete)
         || Says(h, i, conn, StatusChanged(Disconnected))
         || (0 <= i < |h| && h[i].Seen? && !IsSubAgent(h, i, h[i].event.conn)
             && (h[i].event.payload == PermissionResolved(request)
                 || (h[i].event.payload == PermissionRequest(request) && h[i].event.conn != conn)))
  }

  ghost predicate IsAwaited(h: seq<Item>, n: int, request: string, conn: string) {
    Stands(AsksOf(h, request, conn), EndsAsk(h, request, conn), n)
  }

  lemma {:induction false} ChildrenMean(h: seq<Item>, n: nat, conn: string)
    requires n <= |h|
    ensures conn in After(h, n).children <==> IsSubAgent(h, n, conn)
  {
    if n > 0 {
      ChildrenMean(h, n - 1, conn);
      StandsNext(StartsOf(h, conn), EndsOf(h, conn), n - 1);
    }
  }

  lemma {:induction false} PromptingMeans(h: seq<Item>, n: nat, conn: string)
    requires n <= |h|
    ensures conn in After(h, n).prompting <==> IsPrompting(h, n, conn)
  {
    if n > 0 {
      PromptingMeans(h, n - 1, conn);
      ChildrenMean(h, n - 1, conn);
      NoSubAgentCounts(h, n - 1);
      StandsNext(PromptsOf(h, conn), EndsPrompt(h, conn), n - 1);
    }
  }

  lemma {:induction false} ErringMeans(h: seq<Item>, n: nat, conn: string)
    requires n <= |h|
    ensures conn in After(h, n).erroring <==> IsErring(h, n, conn)
  {
    if n > 0 {
      ErringMeans(h, n - 1, conn);
      ChildrenMean(h, n - 1, conn);
      NoSubAgentCounts(h, n - 1);
      StandsNext(ErrorsOf(h, conn), EndsError(h, conn), n - 1);
    }
  }

  predicate Holds(s: Snapshot, request: string, conn: string) {
    request in s.pending && s.pending[request] == conn
  }

  predicate Drops(s: Snapshot, item: Item, request: string, conn: string) {
    match item
    case Overrun => true
    case Recovered => false
    case Seen(e) =>
      || e.payload == DelegationStarted(conn) || e.payload == DelegationCompleted(conn)
      || (e.conn == conn && (e.payload == TurnComplete || e.payload == StatusChanged(Disconnected)))
      || (e.conn !in s.children
          && (e.payload == PermissionResolved(request) || (e.payload == PermissionRequest(request) && e.conn != conn)))
  }

  lemma PendingNext(s: Snapshot, item: Item, request: string, conn: string)
    requires ChildrenExcluded(s)
    ensures Holds(Advance(s, item), request, conn) <==>
            (item == Seen(Event(conn, PermissionRequest(request))) && conn !in s.children)
            || (Holds(s, request, conn) && !Drops(s, item, request, conn))
  {
  }

  lemma {:induction false} PendingMeans(h: seq<Item>, n: nat, request: string, conn: string)
    requires n <= |h|
    ensures Holds(After(h, n), request, conn) <==> IsAwaited(h, n, request, conn)
  {
    if n > 0 {
      var s, item := After(h, n - 1), h[n - 1];
      PendingMeans(h, n - 1, request, conn);
      ChildrenMean(h, n - 1, conn);
      if item.Seen? { ChildrenMean(h, n - 1, item.event.conn); }
      NoSubAgentCounts(h, n - 1);
      PendingNext(s, item, request, conn);
      AskedNext(h, n - 1, request, conn);
    }
  }

  lemma AskedNext(h: seq<Item>, n: nat, request: string, conn: string)
    requires n < |h| && (IsSubAgent(h, n, conn) <==> conn in After(h, n).children)
    requires h[n].Seen? ==> (IsSubAgent(h, n, h[n].event.conn) <==> h[n].event.conn in After(h, n).children)
    ensures IsAwaited(h, n + 1, request, conn) <==>
            (h[n] == Seen(Event(conn, PermissionRequest(request))) && conn !in After(h, n).children)
            || (IsAwaited(h, n, request, conn) && !Drops(After(h, n), h[n], request, conn))
  {
    StandsNext(AsksOf(h, request, conn), EndsAsk(h, request, conn), n);
    assert EndsAsk(h, request, conn)(n) <==> Drops(After(h, n), h[n], request, conn);
  }

  /** The ambient state in terms of the history: failed while some session is erring, else
      waiting while some answer is awaited, else running while some session is prompting. */
  lemma AmbientStateMeans(h: seq<Item>, n: nat)
    requires n <= |h|
    ensures var failed := exists c :: IsErring(h, n, c);
            var waiting := exists r, c :: IsAwaited(h, n, r, c);
            var running := exists c :: IsPrompting(h, n, c);
            Compute(After(h, n)) == if failed then Failed else if waiting then Waiting else if running then Running else Idle
  {
    SomeErring(h, n);
    SomeAwaited(h, n);
    SomePrompting(h, n);
  }

  lemma SomeErring(h: seq<Item>, n: nat)
    requires n <= |h|
    ensures After(h, n).erroring != {} <==> exists c :: IsErring(h, n, c)
  {
    forall c ensures c in After(h, n).erroring <==> IsErring(h, n, c) { ErringMeans(h, n, c); }
    if After(h, n).erroring != {} {
      var c :| c in After(h, n).erroring;
      assert IsErring(h, n, c);
    }
  }

  lemma SomePrompting(h: seq<Item>, n: nat)
    requires n <= |h|
    ensures After(h, n).prompting != {} <==> exists c :: IsPrompting(h, n, c)
  {
    forall c ensures c in After(h, n).prompting <==> IsPrompting(h, n, c) { PromptingMeans(h, n, c); }
    if After(h, n).prompting != {} {
      var c :| c in After(h, n).prompting;
      assert IsPrompting(h, n, c);
    }
  }

  lemma SomeAwaited(h: seq<Item>, n: nat)
    requires n <= |h|
    ensures After(h, n).pending != map[] <==> exists r, c :: IsAwaited(h, n, r, c)
  {
    var pending := After(h, n).pending;
    forall r, c ensures Holds(After(h, n), r, c) <==> IsAwaited(h, n, r, c) { PendingMeans(h, n, r, c); }
    if pending != map[] {
      var r :| r in pending;
      assert Holds(After(h, n), r, pending[r]);
    }
  }

  // ---- A child's signals and its announcement commute --------------------------

  /** The event is of no account once `child` is known to be a sub-agent, and undone by the
      announcement otherwise: it does not end the sub-agent, and uses nobody else's request. */
  predicate Unordered(s: Snapshot, e: Event, child: string) {
    && e.payload != StatusChanged(Disconnected)
    && e.payload != DelegationCompleted(child)
    && (child in s.children || !UsesOthers(s, e, child))
  }

  /** The event is about a permission request that some other connection has pending. */
  predicate UsesOthers(s: Snapshot, e: Event, child: string) {
    && (e.payload.PermissionRequest? || e.payload.PermissionResolved?)
    && e.payload.request in s.pending && s.pending[e.payload.request] != child
  }

  lemma PendingCommutesIff(s: Snapshot, e: Event, announcer: string)
    requires ChildrenExcluded(s)
    ensures var d := Event(announcer, DelegationStarted(e.conn));
            Apply(Apply(s, e), d).pending == Apply(Apply(s, d), e).pending
            <==> e.conn in s.children || !UsesOthers(s, e, e.conn)
  {
    var d := Event(announcer, DelegationStarted(e.conn));
    var first, last := Apply(Apply(s, e), d).pending, Apply(Apply(s, d), e).pending;
    if e.conn !in s.children && UsesOthers(s, e, e.conn) {
      assert e.payload.request in last && e.payload.request !in first;
    } else {
      assert first == last;
    }
  }

  /** A signal of a child leaves the same snapshot before and after the announcement of its
      delegation exactly when `Unordered` says so. */
  lemma SignalCommutesIff(s: Snapshot, e: Event, announcer: string)
    requires ChildrenExcluded(s)
    ensures var d := Event(announcer, DelegationStarted(e.conn));
            Apply(Apply(s, e), d) == Apply(Apply(s, d), e) <==> Unordered(s, e, e.conn)
  {
    var d := Event(announcer, DelegationStarted(e.conn));
    var first, last := Apply(Apply(s, e), d), Apply(Apply(s, d), e);
    assert first.prompting == last.prompting && first.erroring == last.erroring;
    PendingCommutesIff(s, e, announcer);
    if e.payload == StatusChanged(Disconnected) || e.payload == DelegationCompleted(e.conn) {
      assert e.conn in first.children && e.conn !in last.children;
    } else {
      assert first.children == last.children;
    }
  }

  function ApplyAll(s: Snapshot, es: seq<Event>): Snapshot
    decreases |es|
  {
    if es == [] then s else ApplyAll(Apply(s, es[0]), es[1..])
  }

  /** What a connection says about itself while it lives. */
  predicate IsSignal(e: Event) {
    !e.payload.DelegationStarted? && !e.payload.DelegationCompleted? && e.payload != StatusChanged(Disconnected)
  }

  /** With request ids used by one connection only, any number of a sub-agent's signals leave
      the same snapshot before and after the announcement of its delegation. */
  lemma {:induction false} OrderDoesNotMatter(s: Snapshot, es: seq<Event>, child: string, announcer: string)
    requires ChildrenExcluded(s)
    requires forall e <- es :: e.conn == child && IsSignal(e) && !UsesOthers(s, e, child)
    ensures var d := Event(announcer, DelegationStarted(child));
            Apply(ApplyAll(s, es), d) == ApplyAll(Apply(s, d), es) == Apply(s, d)
    decreases |es|
  {
    if es != [] {
      SignalCommutesIff(s, es[0], announcer);
      OrderDoesNotMatter(Apply(s, es[0]), es[1..], child, announcer);
      IgnoredOnceTracked(Apply(s, Event(announcer, DelegationStarted(child))), es, child);
    }
  }

  lemma {:induction false} IgnoredOnceTracked(s: Snapshot, es: seq<Event>, child: string)
    requires child in s.children
    requires forall e <- es :: e.conn == child && IsSignal(e)
    ensures ApplyAll(s, es) == s
    decreases |es|
  {
    if es != [] { IgnoredOnceTracked(s, es[1..], child); }
  }

  lemma {:induction false} AfterPrefix(h: seq<Item>, more: seq<Item>, n: nat)
    requires n <= |h|
    ensures After(h + more, n) == After(h, n)
  {
    if n > 0 { AfterPrefix(h, more, n - 1); }
  }
}

/** The subscriber loop: what it keeps at every turn, whatever its channels and timers do. */
module PetSubscribers {
  import opened Records
  import opened PetStates

  const RECOVERY_MS := 4000
  const CLEAR_CAPACITY := 8

  /** The loop's variables, the shared handle, what was emitted on the state stream, the
      running recovery timers with their due times, and the clear messages queued. */
  datatype Loop = Loop(
    snapshot: Snapshot, history: seq<Item>,
    last: PetState, handle: PetState, emitted: seq<PetState>,
    clearTask: Option<nat>, timers: map<nat, int>, nextTimer: nat, queued: nat,
    now: int, listening: bool)

  const START := Loop(EMPTY, [], Idle, Idle, [Idle], None, map[], 0, 0, 0, true)

  /** What the loop is woken by, a timer coming due, and time passing. */
  datatype Step = Receives(event: Event) | Lags | Clears | Closes | Fires(timer: nat) | Tick(ms: nat)

  /** Events the loop looks at; the others do not reach the snapshot. */
  predicate IsRelevant(p: Payload) { !p.Unrelated? }

  predicate Enabled(l: Loop, t: Step) {
    match t
    case Fires(id) => id in l.timers && l.timers[id] <= l.now
    case Tick(_) => true
    case Clears => l.listening && l.queued > 0
    case _ => l.listening
  }

  /** `cancel_failed_recovery`: a task that has already fired is not recalled. */
  function Cancel(l: Loop): Loop {
    if l.clearTask.None? then l else l.(timers := l.timers - {l.clearTask.value}, clearTask := None)
  }

  function Schedule(l: Loop): Loop {
    var c := Cancel(l);
    c.(clearTask := Some(l.nextTimer), timers := c.timers[l.nextTimer := l.now + RECOVERY_MS], nextTimer := l.nextTimer + 1)
  }

  function Publish(l: Loop): Loop {
    var next := Compute(l.snapshot);
    if next == l.last then l else l.(last := next, handle := next, emitted := l.emitted + [next])
  }

  predicate IsError(p: Payload) { p.ErrorRaised? || p == StatusChanged(Erring) }

  function Recorded(l: Loop, item: Item): Loop {
    l.(snapshot := Advance(l.snapshot, item), history := l.history + [item])
  }

  function Retimed(l: Loop, applied: Loop, p: Payload): Loop {
    var was, erring := l.snapshot.erroring != {}, applied.snapshot.erroring != {};
    if IsError(p) && erring then Schedule(applied)
    else if was && !erring then Cancel(applied)
    else applied
  }

  function OnEvent(l: Loop, e: Event): Loop {
    if !IsRelevant(e.payload) then l else Publish(Retimed(l, Recorded(l, Seen(e)), e.payload))
  }

  function OnLag(l: Loop): Loop {
    var reset := Cancel(Recorded(l, Overrun));
    if l.last == Idle then reset else reset.(last := Idle, handle := Idle, emitted := l.emitted + [Idle])
  }

  /** The timer's message: whatever timer is running now is let go of, not stopped. */
  function OnClear(l: Loop): Loop
    requires l.queued > 0
  {
    Publish(Recorded(l, Recovered).(queued := l.queued - 1, clearTask := None))
  }

  function Do(l: Loop, t: Step): Loop
    requires Enabled(l, t)
  {
    match t
    case Receives(e) => OnEvent(l, e)
    case Lags => OnLag(l)
    case Clears => OnClear(l)
    case Closes => Cancel(l).(listening := false)
    case Fires(id) =>
      l.(timers := l.timers - {id}, queued := if l.queued < CLEAR_CAPACITY then l.queued + 1 else l.queued)
    case Tick(ms) => l.(now := l.now + ms)
  }

  ghost predicate Runs(l: Loop, steps: seq<Step>, end: Loop)
    decreases |steps|
  {
    if steps == [] then end == l else Enabled(l, steps[0]) && Runs(Do(l, steps[0]), steps[1..], end)
  }

  // ---- What holds at every loop head -------------------------------------------

  ghost predicate Coherent(l: Loop) {
    && l.emitted != []
    && l.last == l.handle == l.emitted[|l.emitted| - 1] == Compute(l.snapshot)
    && (forall i :: 0 < i < |l.emitted| ==> l.emitted[i - 1] != l.emitted[i])
  }

  /** A failure on show is about to be cleared: its timer runs, or a clear is queued. */
  ghost predicate Armed(l: Loop) {
    l.listening && l.snapshot.erroring != {} ==>
      l.queued > 0 || (l.clearTask.Some? && l.clearTask.value in l.timers)
  }

  ghost predicate TimersKept(l: Loop) {
    && (forall id <- l.timers :: id < l.nextTimer && l.timers[id] <= l.now + RECOVERY_MS)
    && (l.clearTask.Some? ==> l.clearTask.value < l.nextTimer)
    && l.queued <= CLEAR_CAPACITY
  }

  ghost predicate Inv(l: Loop) {
    Coherent(l) && Armed(l) && TimersKept(l) && l.snapshot == After(l.history, |l.history|)
  }

  /** Up to the state having to be published. */
  ghost predicate Stale(l: Loop) {
    && l.emitted != []
    && l.last == l.handle == l.emitted[|l.emitted| - 1]
    && (forall i :: 0 < i < |l.emitted| ==> l.emitted[i - 1] != l.emitted[i])
  }

  lemma PublishCoheres(l: Loop)
    requires Stale(l)
    ensures Coherent(Publish(l))
  {
  }

  lemma CoherentKept(l: Loop, t: Step)
    requires Enabled(l, t) && Coherent(l)
    ensures Coherent(Do(l, t))
  {
    if t.Receives? && IsRelevant(t.event.payload) {
      PublishCoheres(Retimed(l, Recorded(l, Seen(t.event)), t.event.payload));
    } else if t.Clears? {
      PublishCoheres(Recorded(l, Recovered).(queued := l.queued - 1, clearTask := None));
    }
  }

  lemma ArmedKept(l: Loop, t: Step)
    requires Enabled(l, t) && Armed(l) && TimersKept(l)
    ensures Armed(Do(l, t))
  {
  }

  lemma TimersKeptOn(l: Loop, t: Step)
    requires Enabled(l, t) && TimersKept(l)
    ensures TimersKept(Do(l, t))
  {
  }

  /** What a step adds to the history. */
  function ItemsOf(t: Step): seq<Item> {
    match t
    case Receives(e) => if IsRelevant(e.payload) then [Seen(e)] else []
    case Lags => [Overrun]
    case Clears => [Recovered]
    case _ => []
  }

  lemma StepIsRecorded(l: Loop, t: Step)
    requires Enabled(l, t)
    ensures Do(l, t).history == l.history + ItemsOf(t)
    ensures Do(l, t).snapshot == if ItemsOf(t) == [] then l.snapshot else Advance(l.snapshot, ItemsOf(t)[0])
  {
  }

  lemma HistoryKept(l: Loop, t: Step)
    requires Enabled(l, t) && l.snapshot == After(l.history, |l.history|)
    ensures var l' := Do(l, t); l'.snapshot == After(l'.history, |l'.history|)
  {
    StepIsRecorded(l, t);
    AfterPrefix(l.history, ItemsOf(t), |l.history|);
  }

  lemma {:induction false} RunsKeepInv(l: Loop, steps: seq<Step>, end: Loop)
    requires Inv(l) && Runs(l, steps, end)
    ensures Inv(end)
    decreases |steps|
  {
    if steps != [] {
      var t := steps[0];
      CoherentKept(l, t); ArmedKept(l, t); TimersKeptOn(l, t); HistoryKept(l, t);
      RunsKeepInv(Do(l, t), steps[1..], end);
    }
  }

  /** At every loop head the last state, the shared handle and the last emission agree with
      the snapshot, no state is emitted twice in a row, the snapshot is the meaning of the
      events so far, and a failure on show has a recovery timer or a queued clear. */
  lemma EveryLoopHead(steps: seq<Step>, l: Loop)
    requires Runs(START, steps, l)
    ensures l.emitted != [] && l.last == l.handle == l.emitted[|l.emitted| - 1] == Compute(l.snapshot)
    ensures forall i :: 0 < i < |l.emitted| ==> l.emitted[i - 1] != l.emitted[i]
    ensures l.snapshot == After(l.history, |l.history|)
    ensures l.listening && l.last == Failed ==>
              l.queued > 0 || (l.clearTask.Some? && l.clearTask.value in l.timers)
  {
    RunsKeepInv(START, steps, l);
  }

  predicate RaisesNoError(steps: seq<Step>) {
    forall t <- steps :: t.Receives? ==> !IsError(t.event.payload)
  }

  /** Every recovery timer running comes due by then. */
  ghost predicate TimersDueBy(l: Loop, due: int) {
    forall id <- l.timers :: l.timers[id] <= due
  }

  lemma StepKeepsDueBy(l: Loop, t: Step, due: int)
    requires Enabled(l, t) && TimersDueBy(l, due) && (t.Receives? ==> !IsError(t.event.payload))
    ensures TimersDueBy(Do(l, t), due)
  {
  }

  lemma {:induction false} RunKeepsDueBy(l: Loop, steps: seq<Step>, end: Loop, due: int)
    requires Runs(l, steps, end) && TimersDueBy(l, due) && RaisesNoError(steps)
    ensures TimersDueBy(end, due)
    decreases |steps|
  {
    if steps != [] {
      assert steps[0] in steps;
      StepKeepsDueBy(l, steps[0], due);
      RunKeepsDueBy(Do(l, steps[0]), steps[1..], end, due);
    }
  }

  /** Some session is erring. */
  predicate IsFailing(l: Loop) { l.snapshot.erroring != {} }

  /** An error raised, a first one or another while one is shown, starts the window over: the
      timer named before is gone, and the one named now is due a whole window from now. */
  lemma ErrorRestartsWindow(steps: seq<Step>, l: Loop, e: Event)
    requires Runs(START, steps, l) && l.listening && IsError(e.payload)
    requires IsFailing(Do(l, Receives(e)))
    ensures var f := Do(l, Receives(e));
            && f.clearTask.Some? && f.clearTask != l.clearTask && f.clearTask.value !in l.timers
            && f.clearTask.value in f.timers && f.timers[f.clearTask.value] == l.now + RECOVERY_MS
            && (l.clearTask.Some? ==> l.clearTask.value !in f.timers)
            && (forall id <- f.timers :: id != f.clearTask.value ==> id in l.timers && f.timers[id] == l.timers[id])
            && f.last == Failed && f.queued == l.queued
  {
    RunsKeepInv(START, steps, l);
    CoherentKept(l, Receives(e));
  }

  /** Falling behind and shutting down stop the timer that was named; a clear only forgets it, and
      it goes on to send another. */
  lemma TimersLetGo(l: Loop, t: Step)
    requires Enabled(l, t) && (t.Lags? || t.Closes? || t.Clears?)
    ensures Do(l, t).clearTask.None?
    ensures l.clearTask.Some? ==>
              Do(l, t).timers == if t.Clears? then l.timers else l.timers - {l.clearTask.value}
  {
  }

  /** Once nothing is failing any more, the timer named is gone too. */
  lemma RecoveryStopsTimer(l: Loop, e: Event)
    requires l.listening && IsRelevant(e.payload) && IsFailing(l) && !IsFailing(Do(l, Receives(e)))
    ensures var f := Do(l, Receives(e));
            f.clearTask.None? && (l.clearTask.Some? ==> l.clearTask.value !in f.timers)
  {
  }

  /** Failed is never stuck: whatever state a run has reached, every way it can go on without
      a new error has left Failed once a recovery window has passed, timers that came due
      have fired and the clears queued have been taken. */
  lemma FailedIsNeverStuck(before: seq<Step>, l: Loop, steps: seq<Step>, end: Loop)
    requires Runs(START, before, l) && Runs(l, steps, end) && RaisesNoError(steps)
    requires end.listening && l.now + RECOVERY_MS <= end.now
    requires end.queued == 0 && forall id <- end.timers :: end.now < end.timers[id]
    ensures end.last != Failed
  {
    RunsKeepInv(START, before, l);
    RunsKeepInv(l, steps, end);
    RunKeepsDueBy(l, steps, end, l.now + RECOVERY_MS);
    assert forall id :: id !in end.timers;
  }

  lemma RunsOf3(l: Loop, a: Step, b: Step, c: Step)
    requires Enabled(l, a) && Enabled(Do(l, a), b) && Enabled(Do(Do(l, a), b), c)
    ensures Runs(l, [a, b, c], Do(Do(Do(l, a), b), c))
  {
    var l1, l2, l3 := Do(l, a), Do(Do(l, a), b), Do(Do(Do(l, a), b), c);
    assert Runs(l3, [], l3);
    assert [c][0] == c && [c][1..] == [];
    assert Runs(l2, [c], l3);
    assert [b, c][0] == b && [b, c][1..] == [c];
    assert Runs(l1, [b, c], l3);
    assert [a, b, c][1..] == [b, c];
  }

  /** The way out of a failure when nothing more is received. */
  function WayOut(l: Loop): seq<Step> {
    if l.queued > 0 || l.clearTask.None? || l.clearTask.value !in l.timers then [Clears]
    else
      var id := l.clearTask.value;
      [Tick(if l.timers[id] > l.now then l.timers[id] - l.now else 0), Fires(id), Clears]
  }

  /** And there is always such a way on: from every reachable state showing a failure, the
      timer already set and the message it sends end it within one recovery window. */
  lemma FailureCanEnd(steps: seq<Step>, l: Loop) returns (end: Loop)
    requires Runs(START, steps, l) && l.listening && l.last == Failed
    ensures Runs(l, WayOut(l), end) && end.last != Failed && end.now <= l.now + RECOVERY_MS
  {
    RunsKeepInv(START, steps, l);
    if l.queued > 0 {
      end := Do(l, Clears);
      assert Runs(end, [Clears][1..], end);
    } else {
      var out := WayOut(l);
      end := Do(Do(Do(l, out[0]), out[1]), Clears);
      RunsOf3(l, out[0], out[1], Clears);
    }
  }

  // ---- The recovery window -----------------------------------------------------

  /** Nothing can clear the failure before `due`. */
  ghost predicate Whole(l: Loop, due: int) {
    && (l.queued > 0 ==> due <= l.now)
    && (forall id <- l.timers :: due <= l.timers[id])
    && due <= l.now + RECOVERY_MS
  }

  lemma WholeKept(l: Loop, t: Step, due: int)
    requires Enabled(l, t) && Whole(l, due)
    ensures Whole(Do(l, t), due)
  {
  }

  lemma {:induction false} WholeThroughout(l: Loop, steps: seq<Step>, end: Loop, due: int)
    requires Runs(l, steps, end) && Whole(l, due)
    ensures Whole(end, due)
    decreases |steps|
  {
    if steps != [] {
      WholeKept(l, steps[0], due);
      WholeThroughout(Do(l, steps[0]), steps[1..], end, due);
    }
  }

  /** A clear left over from an earlier failure: queued, or still to be sent by a timer that
      was let go of. */
  ghost predicate HasStaleClear(l: Loop) {
    l.queued > 0 || exists id <- l.timers :: l.timers[id] < l.now + RECOVERY_MS
  }

  /** A failure just raised is shown for the whole window exactly when no stale clear is
      about: with none, no run clears it earlier; with one, some run does. */
  lemma WindowIsWhole(l: Loop, steps: seq<Step>, end: Loop)
    requires !HasStaleClear(l) && Runs(l, steps, end) && Enabled(end, Clears)
    ensures l.now + RECOVERY_MS <= end.now
  {
    WholeThroughout(l, steps, end, l.now + RECOVERY_MS);
  }

  lemma WindowIsCut(l: Loop) returns (steps: seq<Step>, end: Loop)
    requires HasStaleClear(l) && l.listening
    ensures Runs(l, steps, end) && Enabled(end, Clears) && end.now < l.now + RECOVERY_MS
  {
    if l.queued > 0 {
      steps, end := [], l;
    } else {
      var id :| id in l.timers && l.timers[id] < l.now + RECOVERY_MS;
      var wait := Tick(if l.timers[id] > l.now then l.timers[id] - l.now else 0);
      steps, end := [wait, Fires(id)], Do(Do(l, wait), Fires(id));
      assert Runs(end, [], end) && [Fires(id)][1..] == [];
      assert Runs(Do(l, wait), [Fires(id)], end);
      assert steps[1..] == [Fires(id)];
    }
  }

  lemma {:induction false} RunsSnoc(l: Loop, steps: seq<Step>, mid: Loop, t: Step)
    requires Runs(l, steps, mid) && Enabled(mid, t)
    ensures Runs(l, steps + [t], Do(mid, t))
    decreases |steps|
  {
    if steps == [] {
      assert [t][1..] == [] && Runs(Do(mid, t), [], Do(mid, t));
    } else {
      RunsSnoc(Do(l, steps[0]), steps[1..], mid, t);
      assert (steps + [t])[1..] == steps[1..] + [t];
    }
  }

  const FAILS := Receives(Event("c", ErrorRaised))
  const RECOVERS := Receives(Event("c", StatusChanged(Connected)))

  lemma TimerFiresFirst() returns (steps: seq<Step>, l: Loop)
    ensures Runs(START, steps, l) && l.snapshot == EMPTY.(erroring := {"c"}) && l.listening && l.last == Failed
    ensures l.timers == map[] && l.queued == 1 && l.clearTask == Some(0)
  {
    var l1 := Do(START, FAILS);
    assert l1.snapshot == EMPTY.(erroring := {"c"}) && l1.timers == map[0 := RECOVERY_MS];
    var l2 := Do(l1, Tick(RECOVERY_MS));
    steps, l := [FAILS, Tick(RECOVERY_MS), Fires(0)], Do(l2, Fires(0));
    RunsOf3(START, FAILS, Tick(RECOVERY_MS), Fires(0));
    assert l.timers == map[];
  }

  /** Such a state is reachable: the timer of one failure fires just before the connection
      recovers and fails again, and its message clears the second failure at once. */
  lemma StaleClearHappens() returns (steps: seq<Step>, l: Loop)
    ensures Runs(START, steps, l) && l.last == Failed && HasStaleClear(l)
    ensures Enabled(l, Clears) && Do(l, Clears).last == Idle
    ensures l.clearTask.Some? && l.clearTask.value in l.timers && l.timers[l.clearTask.value] == l.now + RECOVERY_MS
  {
    var before, l3 := TimerFiresFirst();
    var l4 := Do(l3, RECOVERS);
    assert l4.snapshot == EMPTY && l4.queued == 1;
    l := Do(l4, FAILS);
    RunsSnoc(START, before, l3, RECOVERS);
    RunsSnoc(START, before + [RECOVERS], l4, FAILS);
    steps := before + [RECOVERS] + [FAILS];
  }
}

/** The aggregator and the loop as the source keeps them: fields updated in place. */
module Pets {
  import opened Records
  import States = PetStates
  import opened PetSubscribers

  class PetGlobalState {
    var prompting: set<string>
    var erroring: set<string>
    var pending: map<string, string>
    var children: set<string>

    function Value(): States.Snapshot
      reads this
    {
      States.Snapshot(prompting, erroring, pending, children)
    }

    constructor ()
      ensures Value() == States.EMPTY
    {
      prompting, erroring, pending, children := {}, {}, map[], {};
    }

    method DropPermissions(conn: string)
      modifies this`pending
      ensures pending == States.Without(old(pending), conn)
    {
      pending := map r | r in pending && pending[r] != conn :: pending[r];
    }

    method Scrub(conn: string)
      modifies this`prompting, this`erroring, this`pending
      ensures Value() == States.Scrub(old(Value()), conn)
    {
      prompting := prompting - {conn};
      erroring := erroring - {conn};
      DropPermissions(conn);
    }

    method ApplyStatus(conn: string, status: States.ConnectionStatus)
      modifies this`prompting, this`erroring, this`pending
      ensures Value() == States.ApplyStatus(old(Value()), conn, status)
    {
      match status {
        case Prompting => prompting, erroring := prompting + {conn}, erroring - {conn};
        case Connected => prompting, erroring := prompting - {conn}, erroring - {conn};
        case Connecting => prompting, erroring := prompting - {conn}, erroring - {conn};
        case Erring => prompting, erroring := prompting - {conn}, erroring + {conn};
        case Disconnected => Scrub(conn);
      }
    }

    method ApplyOwn(e: States.Event)
      modifies this`prompting, this`erroring, this`pending
      ensures Value() == States.ApplyOwn(old(Value()), e)
    {
      match e.payload {
        case StatusChanged(status) => ApplyStatus(e.conn, status);
        case ErrorRaised => erroring := erroring + {e.conn};
        case PermissionRequest(r) => pending := pending[r := e.conn];
        case PermissionResolved(r) => pending := pending - {r};
        case TurnComplete =>
          prompting := prompting - {e.conn};
          DropPermissions(e.conn);
        case _ =>
      }
    }

    method Apply(e: States.Event)
      modifies this
      ensures Value() == States.Apply(old(Value()), e)
    {
      if e.payload.DelegationStarted? {
        children := children + {e.payload.child};
        Scrub(e.payload.child);
      } else if e.payload.DelegationCompleted? {
        children := children - {e.payload.child};
        Scrub(e.payload.child);
      } else if e.conn !in children {
        ApplyOwn(e);
      } else if e.payload == States.StatusChanged(States.Disconnected) {
        children := children - {e.conn};
      }
    }

    method ResetAfterOverrun()
      modifies this
      ensures Value() == States.AfterOverrun(old(Value()))
    {
      prompting, erroring, pending := {}, {}, map[];
    }
  }

  class Subscriber {
    const state: PetGlobalState
    var lastState: States.PetState
    var handle: States.PetState
    var emitted: seq<States.PetState>
    var clearTask: Option<nat>
    var timers: map<nat, int>
    var nextTimer: nat
    var queued: nat
    var now: int
    var listening: bool
    ghost var history: seq<States.Item>

    ghost function Model(): Loop
      reads this, state
    {
      Loop(state.Value(), history, lastState, handle, emitted, clearTask, timers, nextTimer, queued, now, listening)
    }

    constructor ()
      ensures Model() == START && fresh(state)
    {
      state := new PetGlobalState();
      lastState, handle, emitted := States.Idle, States.Idle, [States.Idle];
      clearTask, timers, nextTimer, queued, now, listening, history := None, map[], 0, 0, 0, true, [];
    }

    method CancelFailedRecovery()
      modifies this`clearTask, this`timers
      ensures Model() == Cancel(old(Model()))
    {
      if clearTask.Some? {
        timers := timers - {clearTask.value};
        clearTask := None;
      }
    }

    method ScheduleFailedRecovery()
      modifies this`clearTask, this`timers, this`nextTimer
      ensures Model() == Schedule(old(Model()))
    {
      CancelFailedRecovery();
      timers := timers[nextTimer := now + RECOVERY_MS];
      clearTask := Some(nextTimer);
      nextTimer := nextTimer + 1;
    }

    method PublishState()
      modifies this`lastState, this`handle, this`emitted
      ensures Model() == Publish(old(Model()))
    {
      var next := States.Compute(state.Value());
      if next != lastState {
        lastState, handle, emitted := next, next, emitted + [next];
      }
    }

    method HandleEvent(e: States.Event)
      modifies this, state
      ensures Model() == OnEvent(old(Model()), e)
    {
      if !IsRelevant(e.payload) { return; }
      var wasErroring := state.erroring != {};
      state.Apply(e);
      history := history + [States.Seen(e)];
      var nowErroring := state.erroring != {};
      if IsError(e.payload) && nowErroring {
        ScheduleFailedRecovery();
      } else if wasErroring && !nowErroring {
        CancelFailedRecovery();
      }
      PublishState();
    }

    method HandleLag()
      modifies this, state
      ensures Model() == OnLag(old(Model()))
    {
      state.ResetAfterOverrun();
      history := history + [States.Overrun];
      CancelFailedRecovery();
      if lastState != States.Idle {
        lastState, handle, emitted := States.Idle, States.Idle, emitted + [States.Idle];
      }
    }

    method HandleClear()
      requires queued > 0
      modifies this, state
      ensures Model() == OnClear(old(Model()))
    {
      queued := queued - 1;
      state.erroring := {};
      history := history + [States.Recovered];
      clearTask := None;
      PublishState();
    }
  }
}
