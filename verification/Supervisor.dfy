/** The process supervisor: its loop, its signal handlers, its worker and the staged-upgrade
    marker, each taking one atomic step at a time in any order. */
module Supervisors {
  import opened Records

  const EXIT_RESTART := 86

  datatype Status = Exited(code: int) | Killed(signal: int)

  /** Which call spawns: `spawn_trial`'s first try, its fallback, or the relaunch of a
      restored version after the new one died early. */
  datatype Site = First | Fallback | Relaunch

  /** Where the loop stands. */
  datatype Pc =
    | Peek | Stamp | Spawn(site: Site)
    | StorePid(site: Site, child: int) | CheckFlag(site: Site, child: int) | Forward(site: Site, child: int)
    | LateStamp | LoadPid | Wait(expected: int)
    | ClearPid(status: Status) | CheckStop(status: Status) | Decide(status: Status, elapsed: int)
    | Sleep | Recheck | Done(code: int)

  /** A worker process: running (and whether it has been sent a signal), or not yet reaped. */
  datatype Process = Running(told: bool) | Dead(status: Status)

  /** The two atomics, and the handlers in flight: past the flag, or holding a loaded pid. */
  datatype Signals = Signals(pid: int, stopping: bool, flagged: nat, loaded: multiset<int>)

  /** The staged-upgrade marker and what the worker does with it; `reverted`: this launch's
      worker undid the upgrade and removed the marker. */
  datatype Upgrade = Upgrade(marker: bool, booted: bool, timer: Option<int>, reverted: bool)

  /** What has happened so far; `found` and `late` are about the present launch. */
  datatype Tally = Tally(
    found: bool, late: bool,
    peeks: nat, restarts: nat, attempts: nat, lateAttempts: nat, rollbacks: nat)

  datatype System = System(
    pc: Pc, onTrial: bool, spawnedAt: int, now: int, trial: nat,
    signals: Signals, workers: map<int, Process>, upgrade: Upgrade, tally: Tally)

  function Start(marker: bool, trial: nat): System {
    System(Peek, false, 0, 0, trial, Signals(0, false, 0, multiset{}), map[],
           Upgrade(marker, false, None, false), Tally(false, false, 0, 0, 0, 0, 0))
  }

  predicate IsRunning(workers: map<int, Process>, p: int) {
    p in workers && workers[p].Running?
  }

  predicate Alive(s: System) {
    exists p <- s.workers :: s.workers[p].Running?
  }

  /** `kill`: only a running worker is affected. */
  function Kill(s: System, p: int): System {
    if IsRunning(s.workers, p) then s.(workers := s.workers[p := Running(true)]) else s
  }

  /** How a rollback goes, if one is tried: it may restore nothing, and the removal of the
      marker that follows a restore may fail. */
  datatype Rollback = Fails | Restores(clears: bool)

  datatype Step =
    // the loop; marker lookups, spawns, rollbacks, removals and waits go as they may
    | Advance | PeekFails | Spawned(child: int) | SpawnFails(rollback: Rollback)
    | Interrupted | ReapedOrphan(orphan: int) | ReapedWorker | NoChildren | WaitFails
    | Decided(rollback: Rollback)
    // signal handlers
    | SignalArrives | HandlerLoads | HandlerKills(target: int)
    // the worker and the clock
    | WorkerBoots(sees: bool) | WorkerDies(worker: int, status: Status)
    | TimerFires(clears: bool) | UpgradeStaged(sees: bool) | WorkerReverts(clears: bool) | Tick(ms: nat)

  predicate LoopStep(t: Step) {
    t.Advance? || t.PeekFails? || t.Spawned? || t.SpawnFails? || t.Interrupted? || t.ReapedOrphan? || t.ReapedWorker?
    || t.NoChildren? || t.WaitFails? || t.Decided?
  }

  predicate Enabled(s: System, t: Step) {
    match t
    case Advance => !(s.pc.Spawn? || s.pc.Wait? || s.pc.Decide? || s.pc.Done?)
    case PeekFails => s.pc.Peek?
    case Spawned(c) => s.pc.Spawn? && c > 0 && c !in s.workers
    case SpawnFails(_) => s.pc.Spawn?
    case Interrupted => s.pc.Wait?
    case ReapedOrphan(p) => s.pc.Wait? && p != s.pc.expected && !IsRunning(s.workers, p)
    case ReapedWorker => s.pc.Wait? && s.pc.expected in s.workers && s.workers[s.pc.expected].Dead?
    case NoChildren => s.pc.Wait? && s.workers == map[]
    case WaitFails => s.pc.Wait?
    case Decided(_) => s.pc.Decide?
    case SignalArrives => true
    case HandlerLoads => s.signals.flagged > 0
    case HandlerKills(p) => p in s.signals.loaded
    case WorkerBoots(_) => Alive(s) && !s.upgrade.booted
    case WorkerDies(p, _) => IsRunning(s.workers, p)
    case TimerFires(_) => Alive(s) && s.upgrade.timer.Some? && s.upgrade.timer.value <= s.now
    case UpgradeStaged(sees) => Alive(s) && s.upgrade.booted && !(sees && s.upgrade.marker) && !s.upgrade.reverted
    case WorkerReverts(_) => Alive(s) && s.upgrade.booted
    case Tick(_) => true
  }

  /** After a spawn has been tracked, the relaunch stamps its start; the others already have. */
  function Tracked(site: Site): Pc {
    if site == Relaunch then LateStamp else LoadPid
  }

  /** `upgrade_staged`, which answers no when the lookup fails. */
  function Peeked(s: System, finds: bool): System {
    s.(onTrial := finds, pc := Stamp, tally := s.tally.(found := finds, peeks := s.tally.peeks + 1))
  }

  function LoopAdvance(s: System): System
    requires Enabled(s, Advance)
  {
    match s.pc
    case Peek => Peeked(s, s.upgrade.marker)
    case Stamp => s.(spawnedAt := s.now, pc := Spawn(First))
    case StorePid(site, c) => s.(signals := s.signals.(pid := c), pc := CheckFlag(site, c))
    case CheckFlag(site, c) => s.(pc := if s.signals.stopping then Forward(site, c) else Tracked(site))
    case Forward(site, c) => Kill(s, c).(pc := Tracked(site))
    case LateStamp => s.(spawnedAt := s.now, pc := LoadPid)
    case LoadPid => s.(pc := Wait(s.signals.pid))
    case ClearPid(status) => s.(signals := s.signals.(pid := 0), pc := CheckStop(status))
    case CheckStop(status) => s.(pc := if s.signals.stopping then Done(0) else Decide(status, s.now - s.spawnedAt))
    case Sleep => s.(pc := Recheck)
    case Recheck => s.(pc := if s.signals.stopping then Done(0) else Peek)
  }

  function Attempted(s: System): Tally {
    s.tally.(attempts := s.tally.attempts + 1,
             lateAttempts := s.tally.lateAttempts + (if s.signals.stopping then 1 else 0))
  }

  function LoopSpawned(s: System, c: int): System
    requires s.pc.Spawn?
  {
    s.(workers := s.workers[c := Running(false)], pc := StorePid(s.pc.site, c),
       upgrade := Upgrade(s.upgrade.marker, false, None, false),
       tally := Attempted(s).(late := s.signals.stopping))
  }

  /** A rollback that restores the previous version, and its removal of the marker. */
  function RolledBack(s: System, rollback: Rollback, tally: Tally, site: Site): System
    requires rollback.Restores?
  {
    s.(onTrial := false, upgrade := s.upgrade.(marker := s.upgrade.marker && !rollback.clears),
       tally := tally.(rollbacks := tally.rollbacks + 1), pc := Spawn(site))
  }

  function LoopSpawnFails(s: System, rollback: Rollback): System
    requires s.pc.Spawn?
  {
    if s.pc.site == First && s.onTrial && rollback.Restores? then RolledBack(s, rollback, Attempted(s), Fallback)
    else s.(tally := Attempted(s), pc := Done(1))
  }

  function LoopDecides(s: System, rollback: Rollback): System
    requires s.pc.Decide?
  {
    var status := s.pc.status;
    if status == Exited(EXIT_RESTART) then s.(pc := Sleep, tally := s.tally.(restarts := s.tally.restarts + 1))
    else if s.onTrial && s.pc.elapsed < s.trial && rollback.Restores? then
      RolledBack(s, rollback, s.tally, Relaunch)
    else s.(pc := Done(match status case Exited(code) => code case Killed(signal) => 128 + signal))
  }

  function LoopWaits(s: System, t: Step): System
    requires Enabled(s, t) && s.pc.Wait?
  {
    match t
    case ReapedOrphan(p) => s.(workers := s.workers - {p}, pc := LoadPid)
    case ReapedWorker => s.(workers := s.workers - {s.pc.expected}, pc := ClearPid(s.workers[s.pc.expected].status))
    case NoChildren => s.(pc := Done(if s.signals.stopping then 0 else 1))
    case WaitFails => s.(pc := Done(1))
    case Interrupted => s.(pc := LoadPid)
    case _ => s
  }

  function Loop(s: System, t: Step): System
    requires LoopStep(t) && Enabled(s, t)
  {
    match t
    case Advance => LoopAdvance(s)
    case Spawned(c) => LoopSpawned(s, c)
    case PeekFails => Peeked(s, false)
    case SpawnFails(rollback) => LoopSpawnFails(s, rollback)
    case Decided(rollback) => LoopDecides(s, rollback)
    case _ => LoopWaits(s, t)
  }

  /** Handlers, the worker and the clock. */
  function Outside(s: System, t: Step): System
    requires !LoopStep(t) && Enabled(s, t)
  {
    var sig, up := s.signals, s.upgrade;
    match t
    case SignalArrives => s.(signals := sig.(stopping := true, flagged := sig.flagged + 1))
    case HandlerLoads =>
      s.(signals := sig.(flagged := sig.flagged - 1,
                         loaded := if sig.pid > 0 then sig.loaded + multiset{sig.pid} else sig.loaded))
    case HandlerKills(p) => Kill(s, p).(signals := sig.(loaded := sig.loaded - multiset{p}))
    case WorkerBoots(sees) =>
      s.(upgrade := up.(booted := true, timer := if sees && up.marker then Some(s.now + s.trial) else None))
    case WorkerDies(p, status) => s.(workers := s.workers[p := Dead(status)])
    case TimerFires(clears) => s.(upgrade := up.(marker := up.marker && !clears, timer := None))
    case UpgradeStaged(_) => s.(upgrade := up.(marker := true))
    case WorkerReverts(clears) =>
      s.(upgrade := if clears then up.(marker := false, reverted := true) else up)
    case Tick(ms) => s.(now := s.now + ms)
  }

  function Do(s: System, t: Step): System
    requires Enabled(s, t)
  {
    if LoopStep(t) then Loop(s, t) else Outside(s, t)
  }

  ghost predicate Runs(s: System, steps: seq<Step>, last: System)
    decreases |steps|
  {
    if steps == [] then last == s
    else Enabled(s, steps[0]) && Runs(Do(s, steps[0]), steps[1..], last)
  }

  // ---- No worker escapes a stop -----------------------------------------------

  predicate Tracking(pc: Pc) { pc.StorePid? || pc.CheckFlag? || pc.Forward? }

  predicate Watching(pc: Pc) { pc.LateStamp? || pc.LoadPid? || pc.Wait? }

  predicate Only(workers: map<int, Process>, p: int) {
    p in workers && forall q <- workers :: q == p
  }

  /** At most one unreaped worker, the one the loop is at; outside the window between
      reaping and clearing, WORKER_PID names it or nobody. */
  ghost predicate OneWorker(s: System) {
    var pid := s.signals.pid;
    if s.pc.StorePid? then pid == 0 && s.pc.child > 0 && Only(s.workers, s.pc.child)
    else if s.pc.CheckFlag? || s.pc.Forward? then pid == s.pc.child > 0 && Only(s.workers, pid)
    else if Watching(s.pc) then
      pid > 0 && Only(s.workers, pid) && (s.pc.Wait? ==> s.pc.expected == pid)
    else if s.pc.Done? then s.workers == map[] || (pid > 0 && Only(s.workers, pid))
    else s.workers == map[] && (s.pc.ClearPid? || pid == 0)
  }

  lemma ReapedTheOne(workers: map<int, Process>, p: int)
    requires Only(workers, p)
    ensures workers - {p} == map[]
  {
    var rest := workers - {p};
    assert forall q <- rest :: q in workers && q != p;
    assert rest.Keys == {};
  }

  lemma OneWorkerInLoop(s: System, t: Step)
    requires LoopStep(t) && Enabled(s, t) && OneWorker(s)
    ensures OneWorker(Loop(s, t))
  {
    if t.ReapedWorker? { ReapedTheOne(s.workers, s.pc.expected); }
  }

  lemma OneWorkerOutside(s: System, t: Step)
    requires !LoopStep(t) && Enabled(s, t) && OneWorker(s)
    ensures OneWorker(Outside(s, t))
  {
  }

  /** A running worker not yet sent a signal, once a stop was asked for, is about to be: by
      the loop still tracking it, or by a handler that has its pid or will load it. */
  ghost predicate Reached(s: System) {
    && (s.tally.late ==> s.signals.stopping)
    && forall p <- s.workers :: s.workers[p] == Running(false) && s.signals.stopping && !Tracking(s.pc) ==>
         !s.tally.late && ((s.signals.flagged > 0 && s.signals.pid == p) || p in s.signals.loaded)
  }

  lemma ReachedInLoop(s: System, t: Step)
    requires LoopStep(t) && Enabled(s, t) && OneWorker(s) && Reached(s)
    ensures Reached(Loop(s, t))
  {
  }

  lemma ReachedOutside(s: System, t: Step)
    requires !LoopStep(t) && Enabled(s, t) && OneWorker(s) && Reached(s)
    ensures Reached(Outside(s, t))
  {
  }

  // ---- A rollback needs a trial ------------------------------------------------

  predicate HasLaunched(pc: Pc) { Tracking(pc) || Watching(pc) || pc.ClearPid? || pc.CheckStop? }

  /** While a launch is on trial its marker stands until the window is over, unless the
      worker itself reverted; the supervisor's window closes no later than the worker's. */
  ghost predicate Covered(s: System) {
    var up, closes := s.upgrade, s.spawnedAt + s.trial;
    && s.spawnedAt <= s.now
    && (s.onTrial ==> s.tally.found)
    && (s.pc.LateStamp? || ((s.pc.Spawn? || Tracking(s.pc)) && s.pc.site != First) ==> !s.onTrial)
    && (s.onTrial && (s.pc.Stamp? || s.pc.Spawn?) ==> up.marker)
    && (s.onTrial && HasLaunched(s.pc) ==>
          && (up.timer.Some? ==> closes <= up.timer.value)
          && (up.marker || up.reverted || closes <= s.now))
    && (HasLaunched(s.pc) || s.pc.Decide? ==> !(up.reverted && up.marker))
    && (s.onTrial && s.pc.Decide? ==> up.marker || up.reverted || s.trial <= s.pc.elapsed)
  }

  lemma CoveredInLoop(s: System, t: Step)
    requires LoopStep(t) && Enabled(s, t) && Covered(s)
    ensures Covered(Loop(s, t))
  {
  }

  lemma CoveredOutside(s: System, t: Step)
    requires !LoopStep(t) && Enabled(s, t) && OneWorker(s) && Covered(s)
    ensures Covered(Outside(s, t))
  {
  }

  // ---- Launches are counted ----------------------------------------------------

  /** Spawns still possible before the next upgrade restart. */
  function Left(s: System): nat {
    match s.pc
    case Stamp => 2
    case Spawn(site) => if site == First then 2 else 1
    case Peek => 0
    case Sleep => 0
    case Recheck => 0
    case Done(_) => 0
    case _ => if s.onTrial then 1 else 0
  }

  /** Spawns still possible once a stop was asked for. */
  function LeftAfterStop(s: System): nat {
    if s.pc.Peek? then 2 else if HasLaunched(s.pc) then 0 else Left(s)
  }

  ghost predicate Tallied(s: System) {
    var n := s.tally;
    && n.attempts + Left(s) <= 2 * n.peeks
    && n.rollbacks + (if s.onTrial then 1 else 0) <= n.peeks
    && n.peeks + (if s.pc.Peek? || s.pc.Sleep? || s.pc.Recheck? then 1 else 0) <= n.restarts + 1
  }

  ghost predicate StopBounds(s: System) {
    if s.signals.stopping then s.tally.lateAttempts + LeftAfterStop(s) <= 2 else s.tally.lateAttempts == 0
  }

  lemma TalliedInLoop(s: System, t: Step)
    requires LoopStep(t) && Enabled(s, t) && Covered(s) && Tallied(s)
    ensures Tallied(Loop(s, t))
  {
  }

  lemma StopBoundsInLoop(s: System, t: Step)
    requires LoopStep(t) && Enabled(s, t) && Covered(s) && StopBounds(s)
    ensures StopBounds(Loop(s, t))
  {
  }

  lemma TalliedOutside(s: System, t: Step)
    requires !LoopStep(t) && Enabled(s, t) && Tallied(s) && StopBounds(s)
    ensures Tallied(Outside(s, t)) && StopBounds(Outside(s, t))
  {
  }

  // ---- Every run ---------------------------------------------------------------

  ghost predicate Inv(s: System) {
    OneWorker(s) && Reached(s) && Covered(s) && Tallied(s) && StopBounds(s)
  }

  lemma DoKeepsInv(s: System, t: Step)
    requires Enabled(s, t) && Inv(s)
    ensures Inv(Do(s, t))
  {
    if LoopStep(t) {
      OneWorkerInLoop(s, t); ReachedInLoop(s, t); CoveredInLoop(s, t);
      TalliedInLoop(s, t); StopBoundsInLoop(s, t);
    } else {
      OneWorkerOutside(s, t); ReachedOutside(s, t); CoveredOutside(s, t); TalliedOutside(s, t);
    }
  }

  lemma {:induction false} RunsKeepInv(s: System, steps: seq<Step>, last: System)
    requires Inv(s) && Runs(s, steps, last)
    ensures Inv(last)
    decreases |steps|
  {
    if steps != [] {
      DoKeepsInv(s, steps[0]);
      RunsKeepInv(Do(s, steps[0]), steps[1..], last);
    }
  }

  lemma Reachable(marker: bool, trial: nat, steps: seq<Step>, s: System)
    requires Runs(Start(marker, trial), steps, s)
    ensures Inv(s)
  {
    RunsKeepInv(Start(marker, trial), steps, s);
  }

  /** No worker escapes a stop: in every interleaving, once a stop was asked for, the
      handlers have finished and the loop is not in the middle of tracking a spawn, every
      running worker has been sent a signal. One spawned after the stop was asked for has
      been sent its own by the loop, whatever the handlers still have to do. */
  lemma NoWorkerEscapesAStop(marker: bool, trial: nat, steps: seq<Step>, s: System, p: int)
    requires Runs(Start(marker, trial), steps, s)
    requires s.signals.stopping && !Tracking(s.pc) && IsRunning(s.workers, p)
    requires s.tally.late || (s.signals.flagged == 0 && s.signals.loaded == multiset{})
    ensures s.workers[p] == Running(true)
  {
    Reachable(marker, trial, steps, s);
  }

  /** A handler only ever loads the pid of a worker not yet reaped, so one that runs during
      the relaunch delay signals nobody; the exception is the step between reaping and
      clearing. And the loop never finds itself without a child to wait for. */
  lemma LoadedPidIsUnreaped(marker: bool, trial: nat, steps: seq<Step>, s: System)
    requires Runs(Start(marker, trial), steps, s)
    ensures s.signals.pid == 0 || s.signals.pid in s.workers || s.pc.ClearPid? || s.pc.Done?
    ensures s.pc.Sleep? || s.pc.Recheck? ==> s.signals.pid == 0
    ensures !Enabled(s, NoChildren)
  {
    Reachable(marker, trial, steps, s);
  }

  predicate TriesRollback(s: System, t: Step) {
    || (t.SpawnFails? && s.pc.Spawn? && s.pc.site == First && s.onTrial)
    || (t.Decided? && s.pc.Decide? && s.pc.status != Exited(EXIT_RESTART) && s.onTrial && s.pc.elapsed < s.trial)
  }

  /** A rollback is only tried on a launch that found the staged marker, and the marker is
      still there: it covers the whole window, so that an update which looks for it is
      refused. The one other case: this launch's worker reverted the upgrade itself and
      removed the marker, and then it is gone. */
  lemma RollbackNeedsTrial(marker: bool, trial: nat, steps: seq<Step>, s: System, t: Step)
    requires Runs(Start(marker, trial), steps, s) && Enabled(s, t) && TriesRollback(s, t)
    ensures s.tally.found
    ensures s.upgrade.marker || s.pc.Decide?
    ensures s.pc.Decide? ==> (s.upgrade.marker <==> !s.upgrade.reverted)
  {
    Reachable(marker, trial, steps, s);
  }

  /** At most two launches and one rollback per initial start or upgrade restart, and at
      most two launches in all once a stop was asked for. */
  lemma LaunchesAreBounded(marker: bool, trial: nat, steps: seq<Step>, s: System)
    requires Runs(Start(marker, trial), steps, s)
    ensures s.tally.attempts <= 2 * (s.tally.restarts + 1)
    ensures s.tally.rollbacks <= s.tally.restarts + 1
    ensures s.tally.lateAttempts <= 2
  {
    Reachable(marker, trial, steps, s);
  }

  // ---- The loop ends -----------------------------------------------------------

  const FULL := 60

  /** What is left of the loop before it ends or asks for a restart, waiting aside. */
  function Rank(s: System): nat {
    var second := if s.onTrial then 20 else 0;
    match s.pc
    case Peek => 58
    case Stamp => 39
    case Spawn(_) => second + 18
    case StorePid(_, _) => second + 17
    case CheckFlag(_, _) => second + 16
    case Forward(_, _) => second + 15
    case LateStamp => second + 14
    case LoadPid => second + 13
    case Wait(_) => second + 12
    case ClearPid(_) => second + 11
    case CheckStop(_) => second + 10
    case Decide(_, _) => second + 9
    case Sleep => FULL
    case Recheck => 59
    case Done(_) => 0
  }

  predicate WaitsAgain(t: Step) { t.Interrupted? || t.ReapedOrphan? }

  predicate Restarts(s: System, t: Step) {
    t.Decided? && s.pc.Decide? && s.pc.status == Exited(EXIT_RESTART)
  }

  predicate Counts(t: Step) { LoopStep(t) && !WaitsAgain(t) }

  lemma RankFalls(s: System, t: Step)
    requires Enabled(s, t) && Counts(t) && !Restarts(s, t)
    ensures Rank(Do(s, t)) < Rank(s)
    ensures Do(s, t).tally.restarts == s.tally.restarts
  {
  }

  lemma RankRestarts(s: System, t: Step)
    requires Enabled(s, t) && (!Counts(t) || Restarts(s, t))
    ensures Do(s, t).tally.restarts == s.tally.restarts + (if Restarts(s, t) then 1 else 0)
    ensures Rank(Do(s, t)) <= if Restarts(s, t) then FULL else Rank(s) + (if WaitsAgain(t) then 1 else 0)
  {
  }

  /** Loop steps of a run, a wait that has to be repeated not counted. */
  function Progress(steps: seq<Step>): nat {
    if steps == [] then 0 else (if Counts(steps[0]) then 1 else 0) + Progress(steps[1..])
  }

  function WaitedAgain(steps: seq<Step>): nat {
    if steps == [] then 0 else (if WaitsAgain(steps[0]) then 1 else 0) + WaitedAgain(steps[1..])
  }

  /** One step against the measure. */
  lemma StepIsPaidFor(s: System, t: Step)
    requires Enabled(s, t)
    ensures s.tally.restarts <= Do(s, t).tally.restarts
    ensures (if Counts(t) then 1 else 0) + Rank(Do(s, t))
            <= Rank(s) + (FULL + 1) * (Do(s, t).tally.restarts - s.tally.restarts) + (if WaitsAgain(t) then 1 else 0)
  {
    if Counts(t) && !Restarts(s, t) { RankFalls(s, t); } else { RankRestarts(s, t); }
  }

  /** The loop runs on only through upgrade restarts: every run takes a bounded number of
      steps for each of them and for each wait that had to be repeated. */
  lemma {:induction false} LoopNeedsRestarts(s: System, steps: seq<Step>, last: System)
    requires Runs(s, steps, last)
    ensures s.tally.restarts <= last.tally.restarts
    ensures Progress(steps) + Rank(last)
            <= Rank(s) + (FULL + 1) * (last.tally.restarts - s.tally.restarts) + WaitedAgain(steps)
    decreases |steps|
  {
    if steps != [] {
      var next := Do(s, steps[0]);
      StepIsPaidFor(s, steps[0]);
      LoopNeedsRestarts(next, steps[1..], last);
    }
  }
}

/** The Windows loop: no signals and no orphans, so one launch after another. */
module WindowsSupervisors {
  import opened Records
  import opened Supervisors

  /** How one launch goes: what a marker check just before it would find, whether the spawn
      and the wait work, the exit code if there is one, and how a rollback would go. */
  datatype Launch = Launch(
    staged: bool, spawns: bool, waits: bool, exit: Option<int>, elapsed: nat, rollbackWorks: bool)

  predicate AsksRestart(l: Launch) {
    l.spawns && l.waits && l.exit == Some(EXIT_RESTART)
  }

  /** A launch is a trial when a check preceded it, and the check found the marker. */
  predicate IsTrial(launches: seq<Launch>, i: nat)
    requires i < |launches|
  {
    (i == 0 || AsksRestart(launches[i - 1])) && launches[i].staged
  }

  predicate IsRolledBack(launches: seq<Launch>, i: nat, trial: nat)
    requires i < |launches|
  {
    var l := launches[i];
    IsTrial(launches, i) && l.spawns && l.waits && !AsksRestart(l) && l.elapsed < trial && l.rollbackWorks
  }

  /** The loop goes past a launch exactly when it asked for a restart or was rolled back. */
  predicate GoesOn(launches: seq<Launch>, i: nat, trial: nat)
    requires i < |launches|
  {
    AsksRestart(launches[i]) || IsRolledBack(launches, i, trial)
  }

  function ExitOf(l: Launch): int {
    if !l.spawns || !l.waits || l.exit.None? then 1 else l.exit.value
  }

  /** Of the first `n` launches: those that asked for a restart, and those rolled back. */
  function RestartsIn(launches: seq<Launch>, n: nat): nat
    requires n <= |launches|
  {
    if n == 0 then 0 else RestartsIn(launches, n - 1) + (if AsksRestart(launches[n - 1]) then 1 else 0)
  }

  function RollbacksIn(launches: seq<Launch>, n: nat, trial: nat): nat
    requires n <= |launches|
  {
    if n == 0 then 0 else RollbacksIn(launches, n - 1, trial) + (if IsRolledBack(launches, n - 1, trial) then 1 else 0)
  }

  /** While the loop goes on, rollbacks alternate with restarts at best. */
  lemma {:induction false} GoingOnTakesRestarts(launches: seq<Launch>, n: nat, trial: nat)
    requires n <= |launches| && forall i :: 0 <= i < n ==> GoesOn(launches, i, trial)
    ensures n == RestartsIn(launches, n) + RollbacksIn(launches, n, trial)
    ensures RollbacksIn(launches, n, trial)
            <= RestartsIn(launches, n) + (if n > 0 && IsRolledBack(launches, n - 1, trial) then 1 else 0)
  {
    if n > 0 {
      GoingOnTakesRestarts(launches, n - 1, trial);
      assert GoesOn(launches, n - 1, trial);
      if n > 1 { assert IsRolledBack(launches, n - 1, trial) ==> AsksRestart(launches[n - 2]); }
    }
  }

  /** Runs until the supervisor exits or the launches given are used up; `rollbacks` names
      the launches rolled back. */
  method Run(launches: seq<Launch>, trial: nat) returns (taken: nat, rollbacks: set<nat>, code: Option<int>)
    ensures taken <= |launches|
    ensures forall i :: 0 <= i < taken - 1 ==> GoesOn(launches, i, trial)
    ensures forall i :: i in rollbacks <==> 0 <= i < taken && IsRolledBack(launches, i, trial)
    ensures if taken > 0 && !GoesOn(launches, taken - 1, trial) then code == Some(ExitOf(launches[taken - 1]))
            else code == None && taken == |launches|
  {
    taken, rollbacks := 0, {};
    if launches == [] { return 0, {}, None; }
    var onTrial := launches[0].staged;
    while taken < |launches|
      invariant taken <= |launches|
      invariant forall i :: 0 <= i < taken ==> GoesOn(launches, i, trial)
      invariant forall i :: i in rollbacks <==> 0 <= i < taken && IsRolledBack(launches, i, trial)
      invariant taken < |launches| ==> (onTrial <==> IsTrial(launches, taken))
    {
      var l := launches[taken];
      if !l.spawns || !l.waits { return taken + 1, rollbacks, Some(1); }
      if l.exit == Some(EXIT_RESTART) {
        if taken + 1 < |launches| { onTrial := launches[taken + 1].staged; }
      } else if onTrial && l.elapsed < trial && l.rollbackWorks {
        onTrial := false;
        rollbacks := rollbacks + {taken};
      } else {
        return taken + 1, rollbacks, Some(if l.exit.Some? then l.exit.value else 1);
      }
      taken := taken + 1;
    }
    code := None;
  }

  lemma {:induction false} RollbacksCounted(launches: seq<Launch>, n: nat, rollbacks: set<nat>, trial: nat)
    requires n <= |launches|
    requires forall i :: i in rollbacks <==> 0 <= i < n && IsRolledBack(launches, i, trial)
    ensures |rollbacks| == RollbacksIn(launches, n, trial)
  {
    if n == 0 {
      assert rollbacks == {};
    } else {
      RollbacksCounted(launches, n - 1, rollbacks - {n - 1}, trial);
      if n - 1 in rollbacks { assert rollbacks == (rollbacks - {n - 1}) + {n - 1}; }
      else { assert rollbacks - {n - 1} == rollbacks; }
    }
  }

  /** What `Run` takes is bounded as on Unix: at most two launches and one rollback per restart
      asked for, and as many before the first. */
  lemma LaunchesPerRestart(launches: seq<Launch>, taken: nat, rollbacks: set<nat>, trial: nat)
    requires taken <= |launches| && forall i :: 0 <= i < taken - 1 ==> GoesOn(launches, i, trial)
    requires forall i :: i in rollbacks <==> 0 <= i < taken && IsRolledBack(launches, i, trial)
    ensures taken <= 2 * (RestartsIn(launches, taken) + 1)
    ensures |rollbacks| <= RestartsIn(launches, taken) + 1
  {
    RollbacksCounted(launches, taken, rollbacks, trial);
    if taken > 0 {
      GoingOnTakesRestarts(launches, taken - 1, trial);
      if taken > 1 { assert IsRolledBack(launches, taken - 1, trial) ==> AsksRestart(launches[taken - 2]); }
    }
  }

  /** Unlike on Unix, a staged version that cannot even be spawned ends the supervisor with
      nothing restored. */
  lemma UnspawnableIsFinal(launches: seq<Launch>, i: nat, trial: nat)
    requires i < |launches| && !launches[i].spawns
    ensures !GoesOn(launches, i, trial) && !IsRolledBack(launches, i, trial) && ExitOf(launches[i]) == 1
  {
  }
}
