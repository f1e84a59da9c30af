/** When a session's writer flushes: what a deadline is counted from, that a failing disk is
    tried once a window and no oftener, and that a due flush empties the buffer. */
module WriterDeadlines {
  import opened Records
  import opened TranscriptFile
  import opened Compaction
  import opened Projection
  import opened WriterModel
  import opened WriterTheorems

  /** A flush that leaves its batch for later puts the next attempt a whole window after
      this one, and does so exactly when the disk refused it and nothing stayed behind. */
  lemma RefusedFlushRebases(w: Writer, now: nat, io: Io)
    requires w.pending != [] && !w.poisoned
    ensures var f := Flush(w, now, io);
            && (f.pending != [] <==> io.CannotOpen? || io.RolledBack?)
            && (f.pending != [] ==> f.pending == w.pending && f.file == w.file && f.answers == w.answers
                                    && Deadline(f) == Some(now + FLUSH_WINDOW_MS))
            && (f.pending == [] ==> Deadline(f).None?)
            && f.failures == (if f.pending != [] then w.failures + 1 else if io.Lands? then 0 else w.failures)
  {
    FlushShape(w, now, io);
    CompactNonEmpty(RecordsOf(w.pending), w.compactable);
  }

  /** Until then the writer thread leaves it alone. */
  lemma {:induction false} EarlyTicksDoNothing(w: Writer, ops: seq<Op>)
    requires Deadline(w).Some?
    requires forall i :: 0 <= i < |ops| ==> ops[i].Tick? && ops[i].now < Deadline(w).value
    ensures Run(w, ops) == w
    decreases |ops|
  {
    if ops != [] {
      assert ops[0].Tick? && ops[0].now < Deadline(w).value;
      EarlyTicksDoNothing(w, ops[1..]);
    }
  }

  /** A disk that refuses a flush is not tried again within a window of the attempt. */
  lemma RefusedDiskIsLeftAlone(w: Writer, now: nat, io: Io, ticks: seq<Op>)
    requires w.pending != [] && !w.poisoned && (io.CannotOpen? || io.RolledBack?)
    requires forall i :: 0 <= i < |ticks| ==> ticks[i].Tick? && ticks[i].now < now + FLUSH_WINDOW_MS
    ensures Run(Flush(w, now, io), ticks) == Flush(w, now, io)
  {
    RefusedFlushRebases(w, now, io);
    EarlyTicksDoNothing(Flush(w, now, io), ticks);
  }

  /** From the deadline on, a flush the disk takes empties the buffer, and every waiting
      caller is told its record landed. */
  lemma DueTickLands(w: Writer, now: nat)
    requires w.pending != [] && !w.poisoned && Deadline(w).Some? && Deadline(w).value <= now
    ensures var f := Do(w, Tick(now, Lands));
            && f.pending == [] && Deadline(f).None? && f.failures == 0
            && f.answers == w.answers + AnswersFor(w.pending, true)
            && f.file == w.file + Print(Compact(RecordsOf(w.pending), w.compactable).0)
  {
    FlushShape(w, now, Lands);
    LandingClearsFailures(w, now);
  }

  /** Streamed text inside a live turn waits: offers before the deadline leave the file as it
      is and the callers unanswered, and the deadline where the first of them put it. */
  lemma {:induction false} StreamedTextWaits(w: Writer, ops: seq<Op>)
    requires !w.poisoned && w.compactable
    requires forall i :: 0 <= i < |ops| ==> ops[i].Offer? && !IsBoundary(ops[i].q.record)
    ensures var f := Run(w, ops);
            && f.file == w.file && f.answers == w.answers && f.pending == w.pending + OfferedIn(ops)
            && (w.pending != [] ==> Deadline(f) == Deadline(w))
            && (w.pending == [] && ops != [] ==> Deadline(f) == Some(ops[0].now + FLUSH_WINDOW_MS))
    decreases |ops|
  {
    if ops == [] {
      assert w.pending + [] == w.pending;
    } else {
      assert ops[0].Offer? && !IsBoundary(ops[0].q.record);
      StreamedTextWaits(Do(w, ops[0]), ops[1..]);
      AssociateConcat(w.pending, [ops[0].q], OfferedIn(ops[1..]));
    }
  }

  // ---- What a deadline is counted from --------------------------------------------

  /** One step: the deadline is dropped, kept, or put a window after the step: the last when
      it took the first record into an empty buffer or its flush was refused. */
  lemma StepSetsDeadline(w: Writer, base: seq<Cell>, op: Op)
    requires Books(w, base)
    ensures var f := Do(w, op);
            f.pending != [] ==>
              || (Deadline(f) == Deadline(w) && w.pending != [] && f.failures == w.failures
                  && f.pending[0] == w.pending[0])
              || (Deadline(f) == Some(op.now + FLUSH_WINDOW_MS) && w.pending == [] && op.Offer? && f.pending == [op.q])
              || (Deadline(f) == Some(op.now + FLUSH_WINDOW_MS) && f.failures == w.failures + 1
                  && (op.io.CannotOpen? || op.io.RolledBack?))
  {
    match op
    case Tick(now, io) =>
      if w.pending != [] && !w.poisoned { RefusedFlushRebases(w, now, io); }
    case Offer(q, now, sees, io) =>
      if !w.poisoned { RefusedFlushRebases(Buffer(w, q, now), now, io); }
  }

  /** A step that sets the clock: it takes the first record in, or its flush is refused. */
  predicate Sets(w: Writer, op: Op) {
    || (w.pending == [] && op.Offer? && Do(w, op).pending == [op.q])
    || (Do(w, op).failures == w.failures + 1 && (op.io.CannotOpen? || op.io.RolledBack?))
  }

  predicate SetAt(w: Writer, ops: seq<Op>, k: nat)
    requires k < |ops|
  {
    Sets(Run(w, ops[..k]), ops[k])
  }

  lemma {:induction false} SetAtPrefix(w: Writer, ops: seq<Op>, k: nat)
    requires k < |ops| - 1
    ensures ops[..|ops| - 1][..k] == ops[..k]
    ensures SetAt(w, ops[..|ops| - 1], k) == SetAt(w, ops, k)
  {
  }

  /** The oldest pending record is `q`. */
  predicate Holds(w: Writer, q: Queued) { w.pending != [] && w.pending[0] == q }

  /** The clock and the oldest pending record are as they were. */
  predicate KeepsClock(w: Writer, f: Writer) {
    Deadline(f) == Deadline(w) && w.pending != [] && f.pending != [] && f.pending[0] == w.pending[0]
  }

  lemma StepClock(w: Writer, base: seq<Cell>, op: Op)
    requires Books(w, base) && Do(w, op).pending != []
    ensures if Sets(w, op) then Deadline(Do(w, op)) == Some(op.now + FLUSH_WINDOW_MS) else KeepsClock(w, Do(w, op))
  {
    StepSetsDeadline(w, base, op);
  }

  lemma {:induction false} RunBooks(base: seq<Cell>, ops: seq<Op>)
    ensures Books(Run(NewWriter(base), ops), base)
  {
    NewWriterInv(base, START);
    RunKeepsInv(NewWriter(base), base, START, ops);
  }

  lemma {:induction false} RunLast(w: Writer, ops: seq<Op>)
    requires ops != []
    ensures Run(w, ops) == Do(Run(w, ops[..|ops| - 1]), ops[|ops| - 1])
  {
    assert ops == ops[..|ops| - 1] + [ops[|ops| - 1]];
    RunSnoc(w, ops[..|ops| - 1], ops[|ops| - 1]);
  }

  lemma {:induction false} StepOnRun(base: seq<Cell>, ops: seq<Op>)
    requires ops != [] && Run(NewWriter(base), ops).pending != []
    ensures if SetAt(NewWriter(base), ops, |ops| - 1) then
              Deadline(Run(NewWriter(base), ops)) == Some(ops[|ops| - 1].now + FLUSH_WINDOW_MS)
            else KeepsClock(Run(NewWriter(base), ops[..|ops| - 1]), Run(NewWriter(base), ops))
    ensures Run(NewWriter(base), ops) == Do(Run(NewWriter(base), ops[..|ops| - 1]), ops[|ops| - 1])
  {
    RunLast(NewWriter(base), ops);
    RunBooks(base, ops[..|ops| - 1]);
    StepClock(Run(NewWriter(base), ops[..|ops| - 1]), base, ops[|ops| - 1]);
  }

  predicate QuietSince(w: Writer, ops: seq<Op>, k: nat) {
    k < |ops| && forall j :: k < j < |ops| ==> !SetAt(w, ops, j)
  }

  /** What is pending is due a window after step `k`, and its oldest record was pending then. */
  predicate DueSince(w: Writer, op: Op, f: Writer) {
    && Deadline(f) == Some(op.now + FLUSH_WINDOW_MS)
    && f.pending != [] && Holds(Do(w, op), f.pending[0])
  }

  /** Step `k` is the last of the run to set the clock, and the deadline counts from it. */
  ghost predicate CountsFrom(w: Writer, ops: seq<Op>, k: nat) {
    QuietSince(w, ops, k) && SetAt(w, ops, k) && DueSince(Run(w, ops[..k]), ops[k], Run(w, ops))
  }

  lemma {:induction false} StaysQuiet(w: Writer, ops: seq<Op>, k: nat)
    requires ops != [] && QuietSince(w, ops[..|ops| - 1], k) && !SetAt(w, ops, |ops| - 1)
    ensures QuietSince(w, ops, k)
  {
    var init := ops[..|ops| - 1];
    forall j | k < j < |ops| ensures !SetAt(w, ops, j) {
      if j < |init| {
        assert !SetAt(w, init, j);
        assert init[..j] == ops[..j] && init[j] == ops[j];
      }
    }
  }

  lemma DueLonger(w: Writer, op: Op, f: Writer, g: Writer)
    requires DueSince(w, op, f) && KeepsClock(f, g)
    ensures DueSince(w, op, g)
  {
  }

  lemma {:induction false} KeptFrom(base: seq<Cell>, ops: seq<Op>, k: nat)
    requires ops != [] && CountsFrom(NewWriter(base), ops[..|ops| - 1], k)
    requires KeepsClock(Run(NewWriter(base), ops[..|ops| - 1]), Run(NewWriter(base), ops))
    requires !SetAt(NewWriter(base), ops, |ops| - 1)
    ensures CountsFrom(NewWriter(base), ops, k)
  {
    var w, init := NewWriter(base), ops[..|ops| - 1];
    SetAtPrefix(w, ops, k);
    StaysQuiet(w, ops, k);
    DueLonger(Run(w, ops[..k]), ops[k], Run(w, init), Run(w, ops));
  }

  /** On every run, what is pending is due one window after the step that last set the clock:
      the accept that found the buffer empty, or the last refused flush since. */
  lemma {:induction false} DeadlineCountsFrom(base: seq<Cell>, ops: seq<Op>) returns (k: nat)
    requires Run(NewWriter(base), ops).pending != []
    ensures CountsFrom(NewWriter(base), ops, k)
    decreases |ops|
  {
    var last := |ops| - 1;
    StepOnRun(base, ops);
    if SetAt(NewWriter(base), ops, last) {
      k := last;
    } else {
      k := DeadlineCountsFrom(base, ops[..last]);
      KeptFrom(base, ops, k);
    }
  }

  /** While the disk refuses nothing, the oldest pending record waits one window from its own
      accept, whatever was offered after it. */
  lemma {:induction false} OldestWaitsOneWindow(base: seq<Cell>, ops: seq<Op>) returns (k: nat)
    requires Run(NewWriter(base), ops).pending != []
    requires forall i :: 0 <= i < |ops| ==> !ops[i].io.CannotOpen? && !ops[i].io.RolledBack?
    ensures k < |ops| && ops[k].Offer? && ops[k].q == Run(NewWriter(base), ops).pending[0]
    ensures Run(NewWriter(base), ops[..k]).pending == []
    ensures Deadline(Run(NewWriter(base), ops)) == Some(ops[k].now + FLUSH_WINDOW_MS)
  {
    k := DeadlineCountsFrom(base, ops);
    assert !ops[k].io.CannotOpen? && !ops[k].io.RolledBack?;
  }
}
