/** What the supervisor does about a worker's death, between whatever the handlers, the clock
    and the worker do meanwhile. */
module SupervisorOutcomes {
  import opened Supervisors

  function ExitCode(status: Status): int {
    if status.Exited? then status.code else 128 + status.signal
  }

  // ---- At the decision ----------------------------------------------------------------

  /** Where a decision leads, on every run: on with a relaunch of the restored version if a
      staged version died early and could be rolled back, on after a pause if it asked for a
      restart, and else out with its own exit code. */
  lemma DecisionLeadsTo(marker: bool, trial: nat, steps: seq<Step>, s: System, rollback: Rollback)
    requires Runs(Start(marker, trial), steps, s) && s.pc.Decide?
    ensures var f, restart := Do(s, Decided(rollback)), s.pc.status == Exited(EXIT_RESTART);
            var early := s.onTrial && s.pc.elapsed < s.trial;
            && (f.pc == Sleep <==> restart)
            && (f.pc == Spawn(Relaunch) <==> !restart && early && rollback.Restores?)
            && (f.pc == Done(ExitCode(s.pc.status)) <==> !restart && (!early || rollback.Fails?))
            && f.tally.rollbacks == s.tally.rollbacks + (if f.pc == Spawn(Relaunch) then 1 else 0)
            && f.tally.restarts == s.tally.restarts + (if restart then 1 else 0)
            && (f.pc == Spawn(Relaunch) ==>
                  s.tally.found && !f.onTrial && (rollback.clears ==> !f.upgrade.marker))
  {
    Reachable(marker, trial, steps, s);
  }

  /** A staged version that cannot even be spawned is rolled back and the restored one spawned;
      any other failed spawn, and one of a restored version, ends the supervisor. */
  lemma FailedSpawnLeadsTo(marker: bool, trial: nat, steps: seq<Step>, s: System, rollback: Rollback)
    requires Runs(Start(marker, trial), steps, s) && s.pc.Spawn?
    ensures var f := Do(s, SpawnFails(rollback));
            && (f.pc == Spawn(Fallback) <==> s.onTrial && rollback.Restores?)
            && (f.pc == Done(1) <==> !s.onTrial || rollback.Fails?)
            && f.tally.rollbacks == s.tally.rollbacks + (if f.pc == Spawn(Fallback) then 1 else 0)
            && (f.pc == Spawn(Fallback) ==>
                  s.tally.found && !f.onTrial && (rollback.clears ==> !f.upgrade.marker))
  {
    Reachable(marker, trial, steps, s);
  }

  /** A wait that was interrupted, or reaped somebody else's child, is taken up again for the same
      worker, whatever else happens meanwhile; a wait that fails ends the supervisor with code 1. */
  lemma WaitLeadsTo(marker: bool, trial: nat, steps: seq<Step>, s: System, t: Step)
    requires Runs(Start(marker, trial), steps, s) && s.pc.Wait? && LoopStep(t) && Enabled(s, t)
    ensures t.ReapedWorker? || t.WaitFails? || t.Interrupted? || t.ReapedOrphan?
    ensures t.Interrupted? || t.ReapedOrphan? ==>
              Do(s, t).pc == LoadPid && Do(Do(s, t), Advance).pc == s.pc && Do(s, t).tally == s.tally
    ensures t.WaitFails? ==> Do(s, t).pc == Done(1)
  {
    LoadedPidIsUnreaped(marker, trial, steps, s);
    Reachable(marker, trial, steps, s);
  }

  // ---- From a death to what follows ----------------------------------------------------

  /** The loop's own steps of a run. */
  function LoopSteps(steps: seq<Step>): seq<Step> {
    if steps == [] then []
    else (if LoopStep(steps[0]) then [steps[0]] else []) + LoopSteps(steps[1..])
  }

  /** What others do leaves the loop where it stands, only lets time pass, takes no stop back,
      and can touch the marker only while a worker runs. */
  predicate Later(a: System, b: System) {
    && b.pc == a.pc && b.onTrial == a.onTrial && b.spawnedAt == a.spawnedAt && b.trial == a.trial
    && b.tally == a.tally && a.now <= b.now && (a.signals.stopping ==> b.signals.stopping)
    && b.workers.Keys == a.workers.Keys
    && (forall p <- a.workers :: a.workers[p].Dead? ==> b.workers[p] == a.workers[p])
    && (!Alive(a) ==> !Alive(b) && b.upgrade.marker == a.upgrade.marker)
  }

  lemma OutsideIsLater(s: System, t: Step)
    requires !LoopStep(t) && Enabled(s, t)
    ensures Later(s, Outside(s, t))
  {
    var f := Outside(s, t);
    if !Alive(s) { assert forall p <- f.workers :: f.workers[p] == s.workers[p]; }
  }

  lemma LaterStill(a: System, b: System, c: System)
    requires Later(a, b) && Later(b, c)
    ensures Later(a, c)
  {
  }

  /** The state the loop's next step finds, and the run after it. */
  lemma {:induction false} NextLoopStep(s: System, steps: seq<Step>, last: System)
    returns (at: System, rest: seq<Step>)
    requires Runs(s, steps, last) && LoopSteps(steps) != []
    ensures var t := LoopSteps(steps)[0];
            && Later(s, at) && LoopStep(t) && Enabled(at, t) && Runs(Loop(at, t), rest, last)
            && LoopSteps(rest) == LoopSteps(steps)[1..]
    decreases |steps|
  {
    if LoopStep(steps[0]) {
      at, rest := s, steps[1..];
    } else {
      OutsideIsLater(s, steps[0]);
      at, rest := NextLoopStep(Do(s, steps[0]), steps[1..], last);
      LaterStill(s, Do(s, steps[0]), at);
    }
  }

  lemma {:induction false} LaterAtEnd(s: System, steps: seq<Step>, last: System)
    requires Runs(s, steps, last) && LoopSteps(steps) == []
    ensures Later(s, last)
    decreases |steps|
  {
    if steps != [] {
      OutsideIsLater(s, steps[0]);
      LaterAtEnd(Do(s, steps[0]), steps[1..], last);
      LaterStill(s, Do(s, steps[0]), last);
    }
  }

  /** The clock and the stop flag only move one way. */
  lemma {:induction false} ClockAndStop(s: System, steps: seq<Step>, last: System)
    requires Runs(s, steps, last)
    ensures s.now <= last.now && (s.signals.stopping ==> last.signals.stopping)
    decreases |steps|
  {
    if steps != [] { ClockAndStop(Do(s, steps[0]), steps[1..], last); }
  }

  /** A signal that arrived is remembered: from then on the supervisor is stopping. */
  lemma {:induction false} SignalIsRemembered(s: System, steps: seq<Step>, last: System)
    requires Runs(s, steps, last) && SignalArrives in steps
    ensures last.signals.stopping
    decreases |steps|
  {
    var next := Do(s, steps[0]);
    if steps[0] == SignalArrives {
      ClockAndStop(next, steps[1..], last);
    } else {
      SignalIsRemembered(next, steps[1..], last);
    }
  }

  /** So in every interleaving in which a stop signal ever arrived, once the handlers are done and
      the loop is not in the middle of tracking a spawn, every running worker has been told. */
  lemma SignalReachesWorker(marker: bool, trial: nat, steps: seq<Step>, s: System, p: int)
    requires Runs(Start(marker, trial), steps, s) && SignalArrives in steps
    requires !Tracking(s.pc) && s.signals.flagged == 0 && s.signals.loaded == multiset{} && IsRunning(s.workers, p)
    ensures s.workers[p] == Running(true)
  {
    SignalIsRemembered(Start(marker, trial), steps, s);
    NoWorkerEscapesAStop(marker, trial, steps, s, p);
  }

  /** The loop waits for a worker that has died with `status`. */
  predicate Died(s: System, status: Status) {
    s.pc.Wait? && s.pc.expected in s.workers && s.workers[s.pc.expected] == Dead(status)
  }

  /** The loop's steps from a death to its outcome begin so. */
  predicate Reaps(steps: seq<Step>) {
    |LoopSteps(steps)| >= 3 && LoopSteps(steps)[..3] == [ReapedWorker, Advance, Advance]
  }

  /** No worker is left, and nothing of the launch but the time has changed since `s`. */
  predicate LaunchOver(s: System, at: System) {
    && at.workers == map[] && at.upgrade.marker == s.upgrade.marker && s.now <= at.now
    && at.onTrial == s.onTrial && at.spawnedAt == s.spawnedAt && at.trial == s.trial && at.tally == s.tally
    && (s.signals.stopping ==> at.signals.stopping)
  }

  lemma LaterIsOver(s: System, a: System, b: System)
    requires LaunchOver(s, a) && Later(a, b)
    ensures LaunchOver(s, b)
  {
    assert !Alive(a);
    assert b.workers.Keys == {};
  }

  lemma WorkerReaped(s: System, steps: seq<Step>, last: System, status: Status)
    returns (b: System, rest: seq<Step>)
    requires Inv(s) && Runs(s, steps, last) && Died(s, status)
    requires LoopSteps(steps) != [] && LoopSteps(steps)[0] == ReapedWorker
    ensures LaunchOver(s, b) && b.pc == ClearPid(status)
    ensures Runs(b, rest, last) && LoopSteps(rest) == LoopSteps(steps)[1..]
  {
    var a, after := NextLoopStep(s, steps, last);
    ReapedTheOne(a.workers, a.pc.expected);
    assert !Alive(s);
    b, rest := Loop(a, ReapedWorker), after;
  }

  lemma PidCleared(s: System, b: System, steps: seq<Step>, last: System, status: Status)
    returns (c: System, rest: seq<Step>)
    requires LaunchOver(s, b) && b.pc == ClearPid(status) && Runs(b, steps, last)
    requires LoopSteps(steps) != [] && LoopSteps(steps)[0] == Advance
    ensures LaunchOver(s, c) && c.pc == CheckStop(status)
    ensures Runs(c, rest, last) && LoopSteps(rest) == LoopSteps(steps)[1..]
  {
    var a, after := NextLoopStep(b, steps, last);
    LaterIsOver(s, b, a);
    c, rest := Loop(a, Advance), after;
  }

  lemma StopChecked(s: System, b: System, steps: seq<Step>, last: System, status: Status)
    returns (at: System, rest: seq<Step>)
    requires LaunchOver(s, b) && b.pc == CheckStop(status) && Runs(b, steps, last)
    requires LoopSteps(steps) != [] && LoopSteps(steps)[0] == Advance
    ensures LaunchOver(s, at)
    ensures at.pc == if at.signals.stopping then Done(0) else Decide(status, at.now - s.spawnedAt)
    ensures Runs(at, rest, last) && LoopSteps(rest) == LoopSteps(steps)[1..]
  {
    var a, after := NextLoopStep(b, steps, last);
    LaterIsOver(s, b, a);
    at, rest := Loop(a, Advance), after;
  }

  /** From a death to the decision about it, unless a stop was asked for. */
  lemma DeathReaped(s: System, steps: seq<Step>, last: System, status: Status)
    returns (at: System, rest: seq<Step>)
    requires Inv(s) && Runs(s, steps, last) && Died(s, status) && Reaps(steps)
    ensures LaunchOver(s, at)
    ensures at.pc == if at.signals.stopping then Done(0) else Decide(status, at.now - s.spawnedAt)
    ensures Runs(at, rest, last) && LoopSteps(rest) == LoopSteps(steps)[3..]
  {
    var ts := LoopSteps(steps);
    assert ts[0] == ts[..3][0] && ts[1] == ts[..3][1] && ts[2] == ts[..3][2];
    var b, rest1 := WorkerReaped(s, steps, last, status);
    var c, rest2 := PidCleared(s, b, rest1, last, status);
    at, rest := StopChecked(s, c, rest2, last, status);
  }

  /** A stop is honoured: a worker's death after it ends the supervisor with code 0, whatever
      the worker's status. */
  lemma StopEndsLoop(s: System, steps: seq<Step>, last: System, status: Status)
    requires Inv(s) && Runs(s, steps, last) && Died(s, status) && s.signals.stopping
    requires LoopSteps(steps) == [ReapedWorker, Advance, Advance]
    ensures last.pc == Done(0) && last.tally == s.tally
  {
    var at, rest := DeathReaped(s, steps, last, status);
    LaterAtEnd(at, rest, last);
  }

  /** The decision about a death, and the run after it. */
  lemma DeathDecided(s: System, steps: seq<Step>, last: System, status: Status, rollback: Rollback)
    returns (at: System, elapsed: int, rest: seq<Step>)
    requires Inv(s) && Runs(s, steps, last) && Died(s, status) && Reaps(steps) && !last.signals.stopping
    requires |LoopSteps(steps)| >= 4 && LoopSteps(steps)[3] == Decided(rollback)
    ensures LaunchOver(s, at) && at.pc == Decide(status, elapsed)
    ensures s.now - s.spawnedAt <= elapsed <= last.now - s.spawnedAt
    ensures Runs(LoopDecides(at, rollback), rest, last) && LoopSteps(rest) == LoopSteps(steps)[4..]
  {
    var d, rest1 := DeathReaped(s, steps, last, status);
    ClockAndStop(d, rest1, last);
    assert LoopSteps(rest1)[0] == Decided(rollback);
    at, rest := NextLoopStep(d, rest1, last);
    elapsed := d.now - s.spawnedAt;
    LaterIsOver(s, d, at);
  }

  /** A staged version that dies inside its trial window, other than to restart, is rolled back:
      if the rollback restores the previous version and no stop comes, the next thing
      spawned is that version, off trial. */
  lemma EarlyDeathIsRolledBack(s: System, steps: seq<Step>, last: System, status: Status, clears: bool, child: int)
    requires Inv(s) && Runs(s, steps, last) && Died(s, status) && status != Exited(EXIT_RESTART)
    requires s.onTrial && last.now - s.spawnedAt < s.trial && !last.signals.stopping
    requires LoopSteps(steps) == [ReapedWorker, Advance, Advance, Decided(Restores(clears)), Spawned(child)]
    ensures last.pc == StorePid(Relaunch, child) && !last.onTrial && child in last.workers
    ensures last.tally.rollbacks == s.tally.rollbacks + 1 && last.tally.attempts == s.tally.attempts + 1
  {
    var at, elapsed, rest := DeathDecided(s, steps, last, status, Restores(clears));
    assert LoopSteps(rest) == [Spawned(child)];
    var b, rest1 := NextLoopStep(LoopDecides(at, Restores(clears)), rest, last);
    LaterAtEnd(Loop(b, Spawned(child)), rest1, last);
    assert child in Loop(b, Spawned(child)).workers.Keys;
  }

  /** Any other death ends the supervisor with the worker's own exit code: one off trial, one
      after the window, or one that could not be rolled back. */
  lemma DeathEndsLoop(s: System, steps: seq<Step>, last: System, status: Status, rollback: Rollback)
    requires Inv(s) && Runs(s, steps, last) && Died(s, status) && status != Exited(EXIT_RESTART)
    requires !s.onTrial || s.trial <= s.now - s.spawnedAt || rollback.Fails?
    requires LoopSteps(steps) == [ReapedWorker, Advance, Advance, Decided(rollback)] && !last.signals.stopping
    ensures last.pc == Done(ExitCode(status)) && last.tally == s.tally
  {
    var at, elapsed, rest := DeathDecided(s, steps, last, status, rollback);
    LaterAtEnd(LoopDecides(at, rollback), rest, last);
  }

  /** A worker that asks for a restart gets one, after the pause: with no stop meanwhile, the
      next spawn is a first launch, on trial exactly when an upgrade was staged at its death. */
  lemma RestartIsHonoured(s: System, steps: seq<Step>, last: System, rollback: Rollback, child: int)
    requires Inv(s) && Runs(s, steps, last) && Died(s, Exited(EXIT_RESTART)) && !last.signals.stopping
    requires LoopSteps(steps) == [ReapedWorker, Advance, Advance, Decided(rollback)]
                                 + [Advance, Advance, Advance, Advance] + [Spawned(child)]
    ensures last.pc == StorePid(First, child) && (last.onTrial <==> s.upgrade.marker)
    ensures last.tally.restarts == s.tally.restarts + 1 && last.tally.rollbacks == s.tally.rollbacks
    ensures s.now <= last.spawnedAt <= last.now
  {
    var ts := LoopSteps(steps);
    assert ts[..3] == [ReapedWorker, Advance, Advance] && ts[3] == Decided(rollback);
    var at, elapsed, rest := DeathDecided(s, steps, last, Exited(EXIT_RESTART), rollback);
    assert LoopSteps(rest) == [Advance, Advance, Advance, Advance] + [Spawned(child)];
    RestartRelaunches(LoopDecides(at, rollback), rest, last, child);
  }

  /** No worker is left, the marker is as it was, and the clock runs on. */
  predicate Paused(s: System, at: System) {
    && at.workers == map[] && at.upgrade.marker == s.upgrade.marker && s.now <= at.now
    && at.tally.restarts == s.tally.restarts && at.tally.rollbacks == s.tally.rollbacks
  }

  lemma PausedLater(s: System, a: System, b: System)
    requires Paused(s, a) && Later(a, b)
    ensures Paused(s, b)
  {
    assert !Alive(a);
    assert b.workers.Keys == {};
  }

  /** The loop's next advance on the way from the pause to a launch. */
  lemma NextAdvance(s: System, b: System, steps: seq<Step>, last: System)
    returns (c: System, rest: seq<Step>)
    requires Paused(s, b) && Runs(b, steps, last) && !last.signals.stopping
    requires LoopSteps(steps) != [] && LoopSteps(steps)[0] == Advance
    requires b.pc.Sleep? || b.pc.Recheck? || b.pc.Peek? || b.pc.Stamp?
    ensures Paused(s, c) && Runs(c, rest, last) && LoopSteps(rest) == LoopSteps(steps)[1..]
    ensures b.pc.Sleep? ==> c.pc.Recheck?
    ensures b.pc.Recheck? ==> c.pc.Peek?
    ensures b.pc.Peek? ==> c.pc.Stamp? && (c.onTrial <==> s.upgrade.marker)
    ensures b.pc.Stamp? ==> c.pc == Spawn(First) && c.onTrial == b.onTrial && s.now <= c.spawnedAt <= c.now
  {
    var a, after := NextLoopStep(b, steps, last);
    PausedLater(s, b, a);
    c, rest := Loop(a, Advance), after;
    ClockAndStop(a, [Advance] + after, last);
  }

  lemma RestartRelaunches(s: System, steps: seq<Step>, last: System, child: int)
    requires s.pc.Sleep? && s.workers == map[] && Runs(s, steps, last) && !last.signals.stopping
    requires LoopSteps(steps) == [Advance, Advance, Advance, Advance] + [Spawned(child)]
    ensures last.pc == StorePid(First, child) && (last.onTrial <==> s.upgrade.marker)
    ensures last.tally.restarts == s.tally.restarts && last.tally.rollbacks == s.tally.rollbacks
    ensures s.now <= last.spawnedAt <= last.now
  {
    var b, rest1 := NextAdvance(s, s, steps, last);
    var c, rest2 := NextAdvance(s, b, rest1, last);
    var d, rest3 := NextAdvance(s, c, rest2, last);
    var e, rest4 := NextAdvance(s, d, rest3, last);
    assert LoopSteps(rest4) == [Spawned(child)];
    var f, rest5 := NextLoopStep(e, rest4, last);
    LaterAtEnd(Loop(f, Spawned(child)), rest5, last);
  }

  /** A stop that comes during the pause before a relaunch is honoured too. */
  lemma StopDuringPause(s: System, steps: seq<Step>, last: System)
    requires Inv(s) && s.pc.Sleep? && s.signals.stopping && Runs(s, steps, last)
    requires LoopSteps(steps) == [Advance, Advance]
    ensures last.pc == Done(0)
  {
    var a, rest1 := NextLoopStep(s, steps, last);
    var b, rest2 := NextLoopStep(Loop(a, Advance), rest1, last);
    LaterAtEnd(Loop(b, Advance), rest2, last);
  }

  /** A staged version that lives through its window proves itself: the marker comes off then,
      and no sooner. */
  lemma SurvivorClearsMarker(s: System, ms: nat)
    requires Enabled(s, WorkerBoots(true)) && s.upgrade.marker
    ensures var up := Do(Do(s, WorkerBoots(true)), Tick(ms));
            && up.upgrade.marker
            && (Enabled(up, TimerFires(true)) <==> s.trial <= ms)
            && (s.trial <= ms ==> !Do(up, TimerFires(true)).upgrade.marker)
  {
    var p :| p in s.workers && s.workers[p].Running?;
    assert p in Do(Do(s, WorkerBoots(true)), Tick(ms)).workers;
  }

  /** The loop's next advance while it tracks a relaunch. */
  lemma TrackingAdvances(b: System, steps: seq<Step>, last: System, child: int)
    returns (c: System, rest: seq<Step>)
    requires b.pc == StorePid(Relaunch, child) || b.pc == CheckFlag(Relaunch, child) || b.pc.LateStamp?
    requires Runs(b, steps, last) && !last.signals.stopping
    requires LoopSteps(steps) != [] && LoopSteps(steps)[0] == Advance
    ensures b.pc.StorePid? ==> c.pc == CheckFlag(Relaunch, child)
    ensures b.pc.CheckFlag? ==> c.pc.LateStamp?
    ensures b.pc.LateStamp? ==> c.pc == LoadPid && b.now <= c.spawnedAt <= c.now
    ensures b.now <= c.now && Runs(c, rest, last) && LoopSteps(rest) == LoopSteps(steps)[1..]
  {
    var a, after := NextLoopStep(b, steps, last);
    c, rest := Loop(a, Advance), after;
    ClockAndStop(c, rest, last);
  }

  /** A relaunched version's start is stamped only once its spawn has been tracked. */
  lemma RelaunchIsStampedLate(s: System, steps: seq<Step>, last: System, child: int)
    requires s.pc == StorePid(Relaunch, child) && Runs(s, steps, last) && !last.signals.stopping
    requires LoopSteps(steps) == [Advance, Advance, Advance]
    ensures last.pc == LoadPid && s.now <= last.spawnedAt <= last.now
  {
    var b, rest1 := TrackingAdvances(s, steps, last, child);
    var c, rest2 := TrackingAdvances(b, rest1, last, child);
    var d, rest3 := TrackingAdvances(c, rest2, last, child);
    LaterAtEnd(d, rest3, last);
  }
}
