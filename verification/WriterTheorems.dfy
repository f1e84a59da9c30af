/** What every run of a session's writer keeps, under any disk outcomes. */
module WriterTheorems {
  import opened Records
  import opened TranscriptFile
  import opened Compaction
  import opened Projection
  import opened WriterModel

  // ---- Bookkeeping ----------------------------------------------------------

  /** Every accepted record is, in order, in exactly one landed or abandoned batch or
      still pending; callers were answered accordingly; a deadline stands exactly while
      something is pending; and only in-progress streamed text waits on a healthy disk. */
  ghost predicate Books(w: Writer, base: seq<Cell>) {
    && w.file == base + Gather(w.log, EventCells)
    && w.answers == Gather(w.log, EventAnswers)
    && w.accepted == Gather(w.log, EventBatch) + w.pending
    && (w.oldestPendingAt.Some? <==> w.pending != [])
    && (w.poisoned ==> w.pending == [])
    && (w.failures == 0 ==> forall q <- w.pending :: !IsBoundary(q.record) && w.compactable)
  }

  lemma {:induction false} CompactNonEmpty(rs: seq<Record>, compactable: bool)
    requires rs != []
    ensures Compact(rs, compactable).0 != []
    ensures Print(Compact(rs, compactable).0) != []
  {
    var init, x := rs[..|rs| - 1], rs[|rs| - 1];
    assert rs == init + [x];
    TakeAllSnoc(Begin(compactable), init, x);
    PrintAtBoundary(Compact(rs, compactable).0);
  }

  /** A flush that writes, as one logged event. */
  function FlushEvent(w: Writer, io: Io): Event
    requires w.pending != [] && (io.Lands? || io.Torn?)
  {
    if io.Lands? then Landed(w.pending, w.compactable)
    else
      CompactNonEmpty(RecordsOf(w.pending), w.compactable);
      Abandoned(w.pending, w.compactable, Cut(Print(Batch(w).0), io.wrote), io.newline)
  }

  /** The shape of a flush: nothing, a deferral, or one logged event. */
  lemma FlushShape(w: Writer, now: nat, io: Io)
    requires w.pending != [] && !w.poisoned
    ensures var f := Flush(w, now, io);
            if io.Lands? || io.Torn? then
              && f.log == w.log + [FlushEvent(w, io)]
              && f.file == w.file + EventCells(FlushEvent(w, io))
              && f.answers == w.answers + EventAnswers(FlushEvent(w, io))
              && f.pending == [] && f.oldestPendingAt.None? && f.accepted == w.accepted
              && f.compactable == (if io.Lands? then Batch(w).1 else w.compactable)
              && f.poisoned == (io.Torn? && !io.newline)
            else f == Defer(w, now)
  {
    CompactNonEmpty(RecordsOf(w.pending), w.compactable);
    if io.Torn? {
      var lines := Print(Batch(w).0);
      var n := Cut(lines, io.wrote);
      var tail := if io.newline then [Newline] else [];
      assert w.file + lines[..n] + tail == w.file + (lines[..n] + tail);
    }
  }

  /** One logged event that takes the whole buffer. */
  lemma LoggedKeepsBooks(w: Writer, f: Writer, base: seq<Cell>, e: Event)
    requires Books(w.(failures := 1), base)
    requires f.log == w.log + [e] && EventBatch(e) == w.pending
    requires f.file == w.file + EventCells(e) && f.answers == w.answers + EventAnswers(e)
    requires f.accepted == w.accepted && f.pending == [] && f.oldestPendingAt.None?
    ensures Books(f, base)
  {
    GatherSnoc(w.log, e, EventCells);
    GatherSnoc(w.log, e, EventAnswers);
    GatherSnoc(w.log, e, EventBatch);
    AssociateConcat(base, Gather(w.log, EventCells), EventCells(e));
  }

  lemma DeferKeepsBooks(w: Writer, base: seq<Cell>, now: nat)
    requires Books(w.(failures := 1), base) && w.pending != []
    ensures Books(Defer(w, now), base)
  {
  }

  lemma WriteKeepsBooks(w: Writer, base: seq<Cell>, now: nat, io: Io)
    requires Books(w.(failures := 1), base) && w.pending != [] && !w.poisoned && (io.Lands? || io.Torn?)
    ensures Books(Flush(w, now, io), base)
  {
    FlushShape(w, now, io);
    LoggedKeepsBooks(w, Flush(w, now, io), base, FlushEvent(w, io));
  }

  lemma LandingClearsFailures(w: Writer, now: nat)
    requires w.pending != [] && !w.poisoned
    ensures Flush(w, now, Lands).failures == 0
  {
    CompactNonEmpty(RecordsOf(w.pending), w.compactable);
  }

  lemma FlushKeepsBooks(w: Writer, base: seq<Cell>, now: nat, io: Io)
    requires Books(w.(failures := 1), base)
    ensures Books(Flush(w, now, io), base)
    ensures io.Lands? && w.pending != [] && !w.poisoned ==> Flush(w, now, io).failures == 0
  {
    if w.pending != [] && !w.poisoned {
      if io.Lands? { LandingClearsFailures(w, now); }
      if io.Lands? || io.Torn? {
        WriteKeepsBooks(w, base, now, io);
      } else {
        FlushShape(w, now, io);
        DeferKeepsBooks(w, base, now);
      }
    }
  }

  lemma TurnAwayKeepsBooks(w: Writer, base: seq<Cell>, e: Event, stands: bool)
    requires Books(w, base) && (e.Refused? || e.Repeated?)
    ensures Books(w.(headerWritten := stands, answers := w.answers + EventAnswers(e), log := w.log + [e]), base)
  {
    GatherSnoc(w.log, e, EventCells);
    GatherSnoc(w.log, e, EventAnswers);
    GatherSnoc(w.log, e, EventBatch);
    assert w.file + EventCells(e) == w.file;
    assert Gather(w.log, EventBatch) + EventBatch(e) == Gather(w.log, EventBatch);
  }

  lemma BufferKeepsBooks(w: Writer, base: seq<Cell>, q: Queued, now: nat)
    requires Books(w, base) && !w.poisoned
    ensures Books(Buffer(w, q, now).(failures := 1), base)
    ensures !IsBoundary(q.record) && w.compactable ==> Books(Buffer(w, q, now), base)
  {
    AssociateConcat(Gather(w.log, EventBatch), w.pending, [q]);
  }

  lemma AcceptKeepsBooks(w: Writer, base: seq<Cell>, q: Queued, now: nat, sees: bool, io: Io)
    requires Books(w, base)
    ensures Books(Accept(w, q, now, sees, io), base)
  {
    if w.poisoned {
      TurnAwayKeepsBooks(w, base, Refused(q), w.headerWritten);
    } else if q.record.HeaderRecord? && HeaderStands(w, sees) {
      TurnAwayKeepsBooks(w, base, Repeated(q), true);
    } else {
      BufferKeepsBooks(w, base, q, now);
      FlushKeepsBooks(Buffer(w, q, now), base, now, io);
    }
  }

  // ---- What the file reads as -----------------------------------------------

  /** On a file that ended on a line boundary, what reads back is what was there, then
      each landed batch and the whole lines of each abandoned one, in order. */
  ghost predicate Readable(w: Writer, base: seq<Cell>) {
    AtBoundary(base) ==>
      && Parse(w.file) == Parse(base) + Gather(w.log, EventRecords)
      && (!w.poisoned ==> AtBoundary(w.file))
  }

  /** What one event adds to the file's reading. */
  lemma EventReads(e: Event)
    requires e.Abandoned? ==> e.wrote <= |Print(Compact(RecordsOf(e.batch), e.live).0)|
    ensures Parse(EventCells(e)) == EventRecords(e)
    ensures (e.Abandoned? ==> e.closed) ==> AtBoundary(EventCells(e))
  {
    match e {
      case Landed(batch, live) =>
        ParsePrint(Compact(RecordsOf(batch), live).0);
        PrintAtBoundary(Compact(RecordsOf(batch), live).0);
      case Abandoned(batch, live, wrote, closed) =>
        ParseTorn(Compact(RecordsOf(batch), live).0, wrote);
        var torn := Print(Compact(RecordsOf(batch), live).0)[..wrote];
        assert torn + [] == torn;
      case _ =>
        ParseNothing();
    }
  }

  lemma EventKeepsReadable(w: Writer, base: seq<Cell>, e: Event, f: Writer)
    requires Readable(w, base) && AtBoundary(base) && !w.poisoned
    requires e.Abandoned? ==> e.wrote <= |Print(Compact(RecordsOf(e.batch), e.live).0)|
    requires f.file == w.file + EventCells(e) && f.log == w.log + [e]
    requires !f.poisoned ==> e.Abandoned? ==> e.closed
    ensures Readable(f, base)
  {
    EventReads(e);
    ParseAppend(w.file, EventCells(e));
    GatherSnoc(w.log, e, EventRecords);
    AssociateConcat(Parse(base), Gather(w.log, EventRecords), EventRecords(e));
  }

  lemma FlushKeepsReadable(w: Writer, base: seq<Cell>, now: nat, io: Io)
    requires Readable(w, base)
    ensures Readable(Flush(w, now, io), base)
  {
    if w.pending != [] && !w.poisoned {
      FlushShape(w, now, io);
      if AtBoundary(base) && (io.Lands? || io.Torn?) {
        EventKeepsReadable(w, base, FlushEvent(w, io), Flush(w, now, io));
      }
    }
  }

  lemma AcceptKeepsReadable(w: Writer, base: seq<Cell>, q: Queued, now: nat, sees: bool, io: Io)
    requires Readable(w, base)
    ensures Readable(Accept(w, q, now, sees, io), base)
  {
    if w.poisoned {
      GatherSnoc(w.log, Refused(q), EventRecords);
      assert Gather(w.log, EventRecords) + [] == Gather(w.log, EventRecords);
    } else if q.record.HeaderRecord? && HeaderStands(w, sees) {
      GatherSnoc(w.log, Repeated(q), EventRecords);
      assert Gather(w.log, EventRecords) + [] == Gather(w.log, EventRecords);
    } else {
      FlushKeepsReadable(Buffer(w, q, now), base, now, io);
    }
  }

  // ---- Meaning --------------------------------------------------------------

  /** What a reader makes of everything the log left readable. */
  function ReadLog(r: Reader, log: seq<Event>): Reader {
    Read(r, EntriesOf(Gather(log, EventRecords)))
  }

  /** What it would make of the same records had none been merged. */
  function ReadVerbatim(r: Reader, log: seq<Event>): Reader {
    Read(r, EntriesOf(Gather(log, EventVerbatim)))
  }

  /** After an abandoned write the writer's "turn is live" may lag the last boundary that
      did land. This is the check that it did not. */
  predicate InStep(r: Reader, e: Event, before: seq<Event>) {
    e.Abandoned? && e.live ==> InTurn(ReadLog(r, before + [e]))
  }

  predicate NeverLags(r: Reader, log: seq<Event>) {
    log == [] || (NeverLags(r, log[..|log| - 1]) && InStep(r, log[|log| - 1], log[..|log| - 1]))
  }

  ghost predicate Meant(w: Writer, r: Reader) {
    NeverLags(r, w.log) ==>
      && ReadLog(r, w.log) == ReadVerbatim(r, w.log)
      && (w.compactable ==> InTurn(ReadLog(r, w.log)))
  }

  lemma ReadGatherSnoc(r: Reader, log: seq<Event>, e: Event, part: Event -> seq<Record>)
    ensures Read(r, EntriesOf(Gather(log + [e], part)))
         == Read(Read(r, EntriesOf(Gather(log, part))), EntriesOf(part(e)))
  {
    GatherSnoc(log, e, part);
    EntriesOfAppend(Gather(log, part), part(e));
    ReadAppend(r, EntriesOf(Gather(log, part)), EntriesOf(part(e)));
  }

  lemma EventKeepsMeant(w: Writer, r: Reader, e: Event, f: Writer)
    requires Meant(w, r) && f.log == w.log + [e]
    requires e.Landed? || e.Abandoned? ==> e.live == w.compactable
    requires f.compactable == if e.Landed? then Compact(RecordsOf(e.batch), e.live).1 else w.compactable
    ensures Meant(f, r)
  {
    assert f.log[..|f.log| - 1] == w.log;
    if NeverLags(r, f.log) {
      ReadGatherSnoc(r, w.log, e, EventRecords);
      ReadGatherSnoc(r, w.log, e, EventVerbatim);
      if e.Landed? {
        CompactionIsInvisible(ReadLog(r, w.log), RecordsOf(e.batch), e.live);
      }
    }
  }

  lemma AcceptKeepsMeant(w: Writer, r: Reader, q: Queued, now: nat, sees: bool, io: Io)
    requires Meant(w, r)
    ensures Meant(Accept(w, q, now, sees, io), r)
  {
    if w.poisoned {
      EventKeepsMeant(w, r, Refused(q), Accept(w, q, now, sees, io));
    } else if q.record.HeaderRecord? && HeaderStands(w, sees) {
      EventKeepsMeant(w, r, Repeated(q), Accept(w, q, now, sees, io));
    } else {
      FlushKeepsMeant(Buffer(w, q, now), r, now, io);
    }
  }

  lemma FlushKeepsMeant(w: Writer, r: Reader, now: nat, io: Io)
    requires Meant(w, r)
    ensures Meant(Flush(w, now, io), r)
  {
    if w.pending != [] && !w.poisoned {
      FlushShape(w, now, io);
      if io.Lands? || io.Torn? {
        EventKeepsMeant(w, r, FlushEvent(w, io), Flush(w, now, io));
      }
    }
  }

  // ---- Over every run -------------------------------------------------------

  /** Everything above at once. */
  ghost predicate Inv(w: Writer, base: seq<Cell>, r: Reader) {
    Books(w, base) && Readable(w, base) && Meant(w, r)
  }

  lemma DoKeepsInv(w: Writer, base: seq<Cell>, r: Reader, op: Op)
    requires Inv(w, base, r)
    ensures Inv(Do(w, op), base, r)
  {
    match op
    case Offer(q, now, sees, io) =>
      AcceptKeepsBooks(w, base, q, now, sees, io);
      AcceptKeepsReadable(w, base, q, now, sees, io);
      AcceptKeepsMeant(w, r, q, now, sees, io);
    case Tick(now, io) =>
      assert Books(w.(failures := 1), base);
      FlushKeepsBooks(w, base, now, io);
      FlushKeepsReadable(w, base, now, io);
      FlushKeepsMeant(w, r, now, io);
  }

  lemma {:induction false} RunKeepsInv(w: Writer, base: seq<Cell>, r: Reader, ops: seq<Op>)
    requires Inv(w, base, r)
    ensures Inv(Run(w, ops), base, r)
    decreases |ops|
  {
    if ops != [] {
      DoKeepsInv(w, base, r, ops[0]);
      RunKeepsInv(Do(w, ops[0]), base, r, ops[1..]);
    }
  }

  lemma NewWriterInv(base: seq<Cell>, r: Reader)
    ensures Inv(NewWriter(base), base, r)
  {
    assert base + [] == base;
    assert Parse(base) + [] == Parse(base);
  }

  /** A file only ever grows: what was there before a write that is undone is there again. */
  lemma DoKeepsFile(w: Writer, op: Op)
    ensures w.file <= Do(w, op).file
  {
    match op
    case Tick(now, io) => if w.pending != [] && !w.poisoned { FlushShape(w, now, io); }
    case Offer(q, now, sees, io) => if !w.poisoned { FlushShape(Buffer(w, q, now), now, io); }
  }

  /** Every record a writer has been offered: the accepted and the turned away. */
  ghost function Offered(w: Writer): multiset<Queued> {
    multiset(w.accepted) + multiset(Gather(w.log, Turned))
  }

  function OfferedBy(op: Op): seq<Queued> {
    if op.Offer? then [op.q] else []
  }

  lemma DoAccountsFor(w: Writer, op: Op)
    ensures Offered(Do(w, op)) == Offered(w) + multiset(OfferedBy(op))
  {
    match op
    case Tick(now, io) => FlushTurnsNoneAway(w, now, io);
    case Offer(q, now, sees, io) => AcceptAccountsFor(w, q, now, sees, io);
  }

  lemma MultisetOfSum<T>(all: multiset<T>, a: seq<T>, b: seq<T>)
    ensures all + multiset(a + b) == (all + multiset(a)) + multiset(b)
  {
  }

  lemma {:induction false} OfferedAreAccountedFor(w: Writer, ops: seq<Op>)
    ensures Offered(Run(w, ops)) == Offered(w) + multiset(OfferedIn(ops))
    decreases |ops|
  {
    if ops != [] {
      DoAccountsFor(w, ops[0]);
      OfferedAreAccountedFor(Do(w, ops[0]), ops[1..]);
      MultisetOfSum(Offered(w), OfferedBy(ops[0]), OfferedIn(ops[1..]));
    }
  }

  lemma AcceptAccountsFor(w: Writer, q: Queued, now: nat, sees: bool, io: Io)
    ensures Offered(Accept(w, q, now, sees, io)) == Offered(w) + multiset{q}
  {
    if w.poisoned {
      TurnAwayAccountsFor(w, Refused(q), Accept(w, q, now, sees, io));
    } else if q.record.HeaderRecord? && HeaderStands(w, sees) {
      TurnAwayAccountsFor(w, Repeated(q), Accept(w, q, now, sees, io));
    } else {
      BufferAccountsFor(w, q, now, io);
    }
  }

  lemma BufferAccountsFor(w: Writer, q: Queued, now: nat, io: Io)
    ensures Offered(Buffer(w, q, now)) == Offered(w) + multiset{q}
    ensures Offered(Flush(Buffer(w, q, now), now, io)) == Offered(w) + multiset{q}
  {
    FlushTurnsNoneAway(Buffer(w, q, now), now, io);
    assert multiset(w.accepted + [q]) == multiset(w.accepted) + multiset{q};
  }

  lemma TurnAwayAccountsFor(w: Writer, e: Event, f: Writer)
    requires e.Refused? || e.Repeated?
    requires f.accepted == w.accepted && f.log == w.log + [e]
    ensures Offered(f) == Offered(w) + multiset{e.q}
  {
    GatherSnoc(w.log, e, Turned);
    assert multiset(Gather(w.log, Turned) + [e.q]) == multiset(Gather(w.log, Turned)) + multiset{e.q};
  }

  lemma FlushTurnsNoneAway(w: Writer, now: nat, io: Io)
    ensures Flush(w, now, io).accepted == w.accepted
    ensures Gather(Flush(w, now, io).log, Turned) == Gather(w.log, Turned)
  {
    if w.pending != [] && !w.poisoned {
      FlushShape(w, now, io);
      if io.Lands? || io.Torn? {
        GatherSnoc(w.log, FlushEvent(w, io), Turned);
        assert Gather(w.log, Turned) + [] == Gather(w.log, Turned);
      }
    }
  }

  /** Exactly once, in order, under any I/O outcome: every record ever offered was
      accepted or turned away, every accepted one is in exactly one landed or abandoned
      batch or still pending, the callers' answers say which, and a flush deadline
      stands exactly while something is pending. */
  lemma EveryRecordOnce(base: seq<Cell>, ops: seq<Op>)
    ensures var w := Run(NewWriter(base), ops);
            && multiset(OfferedIn(ops)) == Offered(w)
            && w.accepted == Gather(w.log, EventBatch) + w.pending
            && w.answers == Gather(w.log, EventAnswers)
            && (Deadline(w).Some? <==> w.pending != [])
  {
    NewWriterInv(base, START);
    RunKeepsInv(NewWriter(base), base, START, ops);
    OfferedAreAccountedFor(NewWriter(base), ops);
  }

  /** On a file that ended on a line boundary, what reads back after any run is what was
      there, then each landed batch as compacted and the whole lines of each abandoned
      one, in the order they were accepted, and nothing else. */
  lemma FileHoldsWhatLanded(base: seq<Cell>, ops: seq<Op>)
    requires AtBoundary(base)
    ensures var w := Run(NewWriter(base), ops);
            && Parse(w.file) == Parse(base) + Gather(w.log, EventRecords)
            && (!w.poisoned ==> AtBoundary(w.file))
  {
    NewWriterInv(base, START);
    RunKeepsInv(NewWriter(base), base, START, ops);
  }

  lemma {:induction false} VerbatimIsAccepted(log: seq<Event>)
    requires forall e <- log :: !e.Abandoned?
    ensures Gather(log, EventVerbatim) == RecordsOf(Gather(log, EventBatch))
  {
    if log != [] {
      var init, e := log[..|log| - 1], log[|log| - 1];
      VerbatimIsAccepted(init);
      assert RecordsOf(Gather(init, EventBatch) + EventBatch(e))
          == RecordsOf(Gather(init, EventBatch)) + RecordsOf(EventBatch(e));
    }
  }

  lemma {:induction false} NeverAbandonedNeverLags(r: Reader, log: seq<Event>)
    requires forall e <- log :: !e.Abandoned?
    ensures NeverLags(r, log)
  {
    if log != [] { NeverAbandonedNeverLags(r, log[..|log| - 1]); }
  }

  // ---- One writer after another -------------------------------------------------

  ghost predicate PoisonShows(w: Writer) {
    w.poisoned ==> exists i :: 0 <= i < |w.log| && w.log[i].Abandoned?
  }

  lemma FlushShowsPoison(w: Writer, now: nat, io: Io)
    requires PoisonShows(w)
    ensures PoisonShows(Flush(w, now, io))
  {
    if w.pending != [] && !w.poisoned {
      FlushShape(w, now, io);
      var f := Flush(w, now, io);
      if io.Torn? { assert f.log[|w.log|].Abandoned?; }
    }
  }

  lemma TurnAwayShowsPoison(w: Writer, f: Writer, e: Event)
    requires PoisonShows(w) && f.poisoned == w.poisoned && f.log == w.log + [e]
    ensures PoisonShows(f)
  {
    if w.poisoned {
      var i :| 0 <= i < |w.log| && w.log[i].Abandoned?;
      assert f.log[i].Abandoned?;
    }
  }

  lemma DoShowsPoison(w: Writer, op: Op)
    requires PoisonShows(w)
    ensures PoisonShows(Do(w, op))
  {
    match op
    case Tick(now, io) => FlushShowsPoison(w, now, io);
    case Offer(q, now, sees, io) =>
      if w.poisoned { TurnAwayShowsPoison(w, Do(w, op), Refused(q)); }
      else if !(q.record.HeaderRecord? && HeaderStands(w, sees)) { FlushShowsPoison(Buffer(w, q, now), now, io); }
  }

  lemma {:induction false} RunShowsPoison(w: Writer, ops: seq<Op>)
    requires PoisonShows(w)
    ensures PoisonShows(Run(w, ops))
    decreases |ops|
  {
    if ops != [] {
      DoShowsPoison(w, ops[0]);
      RunShowsPoison(Do(w, ops[0]), ops[1..]);
    }
  }

  /** The file after one writer instance after another has run over it: each starts afresh,
      as after an idle eviction, or a restart that lost what was still buffered. */
  function FileAfter(base: seq<Cell>, lives: seq<seq<Op>>): seq<Cell>
    decreases |lives|
  {
    if lives == [] then base else FileAfter(Run(NewWriter(base), lives[0]).file, lives[1..])
  }

  /** What landed over those lives, in order. */
  function LandedIn(base: seq<Cell>, lives: seq<seq<Op>>): (rs: seq<Record>)
    decreases |lives|
  {
    if lives == [] then []
    else
      var w := Run(NewWriter(base), lives[0]);
      RecordsOf(Gather(w.log, EventBatch)) + LandedIn(w.file, lives[1..])
  }

  ghost predicate NoneAbandoned(base: seq<Cell>, lives: seq<seq<Op>>)
    decreases |lives|
  {
    lives != [] ==>
      var w := Run(NewWriter(base), lives[0]);
      (forall e <- w.log :: !e.Abandoned?) && NoneAbandoned(w.file, lives[1..])
  }

  /** One life, from a file that reads like the records `before`. */
  lemma LifePreservesMeaning(base: seq<Cell>, ops: seq<Op>, before: seq<Record>)
    requires AtBoundary(base) && Read(START, EntriesOf(Parse(base))) == Read(START, EntriesOf(before))
    requires forall e <- Run(NewWriter(base), ops).log :: !e.Abandoned?
    ensures var w := Run(NewWriter(base), ops);
            && AtBoundary(w.file)
            && Read(START, EntriesOf(Parse(w.file))) ==
               Read(START, EntriesOf(before + RecordsOf(Gather(w.log, EventBatch))))
  {
    var w := Run(NewWriter(base), ops);
    var r := Read(START, EntriesOf(Parse(base)));
    NewWriterInv(base, r);
    RunKeepsInv(NewWriter(base), base, r, ops);
    RunShowsPoison(NewWriter(base), ops);
    NeverAbandonedNeverLags(r, w.log);
    VerbatimIsAccepted(w.log);
    EntriesOfAppend(Parse(base), Gather(w.log, EventRecords));
    EntriesOfAppend(before, RecordsOf(Gather(w.log, EventBatch)));
    ReadAppend(START, EntriesOf(Parse(base)), EntriesOf(Gather(w.log, EventRecords)));
    ReadAppend(START, EntriesOf(before), EntriesOf(RecordsOf(Gather(w.log, EventBatch))));
  }

  /** Without an abandoned write, the conversation read from the file after any run of
      any flush schedule with any deferrals is the conversation of the records that
      landed, never merged. */
  lemma RunPreservesMeaning(base: seq<Cell>, ops: seq<Op>)
    requires AtBoundary(base)
    requires forall e <- Run(NewWriter(base), ops).log :: !e.Abandoned?
    ensures var w := Run(NewWriter(base), ops);
            Project(EntriesOf(Parse(w.file))) ==
            Project(EntriesOf(Parse(base) + RecordsOf(Gather(w.log, EventBatch))))
  {
    LifePreservesMeaning(base, ops, Parse(base));
  }

  /** Meaning survives whole lifetimes: however many writers succeed one another over a file,
      cut off mid-turn or not, and whatever each one's flush windows and retries were, the
      conversation read back is that of all the records that landed, never merged. */
  lemma {:induction false} LivesPreserveMeaning(base: seq<Cell>, lives: seq<seq<Op>>, before: seq<Record>)
    requires AtBoundary(base) && NoneAbandoned(base, lives)
    requires Read(START, EntriesOf(Parse(base))) == Read(START, EntriesOf(before))
    ensures Project(EntriesOf(Parse(FileAfter(base, lives)))) == Project(EntriesOf(before + LandedIn(base, lives)))
    decreases |lives|
  {
    if lives == [] {
      assert before + [] == before;
    } else {
      var w := Run(NewWriter(base), lives[0]);
      var landed := RecordsOf(Gather(w.log, EventBatch));
      LifePreservesMeaning(base, lives[0], before);
      LivesPreserveMeaning(w.file, lives[1..], before + landed);
      AssociateConcat(before, landed, LandedIn(w.file, lives[1..]));
    }
  }

  /** With abandoned writes the same holds, each abandoned batch counting for the whole
      lines it left, as long as no abandonment left the writer out of step. */
  lemma InStepRunPreservesMeaning(base: seq<Cell>, ops: seq<Op>, r: Reader)
    requires NeverLags(r, Run(NewWriter(base), ops).log)
    ensures ReadLog(r, Run(NewWriter(base), ops).log) == ReadVerbatim(r, Run(NewWriter(base), ops).log)
  {
    NewWriterInv(base, r);
    RunKeepsInv(NewWriter(base), base, r, ops);
  }

  /** Being in step is exactly what it takes: a writer that believes the turn is live
      writes every later batch faithfully if and only if the reader is in a turn. */
  lemma LiveIsSafeIff(r: Reader, live: bool)
    ensures (forall rs :: Read(r, EntriesOf(Compact(rs, live).0)) == Read(r, EntriesOf(rs)))
       <==> (live ==> InTurn(r))
  {
    if live ==> InTurn(r) {
      forall rs ensures Read(r, EntriesOf(Compact(rs, live).0)) == Read(r, EntriesOf(rs)) {
        CompactionIsInvisible(r, rs, live);
      }
    } else {
      var a := Updated(0, AgentChunk(Message, Plain("a"), None));
      var b := Updated(1, AgentChunk(Message, Plain("b"), None));
      var x, y := EntryRecord(a), EntryRecord(b);
      MergeIsInvisibleIff(r, a, b);
      TakeAllSnoc(Begin(live), [x], y);
      TakeAllSnoc(Begin(live), [], x);
      assert [] + [x] == [x] && [x] + [y] == [x, y];
      assert Compact([x, y], live).0 == [EntryRecord(Fold(a, b))];
      ReadSnoc(r, [], EntryRecord(Fold(a, b)));
      ReadSnoc(r, [], x);
      ReadSnoc(r, [x], y);
      assert [] + [EntryRecord(Fold(a, b))] == [EntryRecord(Fold(a, b))];
    }
  }

  // ---- Retrying ---------------------------------------------------------------

  /** Flush attempts that the disk refused without leaving anything behind. */
  function Retry(w: Writer, attempts: seq<(nat, Io)>): Writer
    decreases |attempts|
  {
    if attempts == [] then w else Retry(Flush(w, attempts[0].0, attempts[0].1), attempts[1..])
  }

  /** Any number of refused attempts leave the file byte-identical, and the flush that
      finally lands does exactly what the first attempt would have done. */
  lemma {:induction false} RetryIsIdempotent(w: Writer, attempts: seq<(nat, Io)>, now: nat)
    requires w.pending != [] && !w.poisoned
    requires forall a <- attempts :: a.1.CannotOpen? || a.1.RolledBack?
    ensures Retry(w, attempts).file == w.file && Retry(w, attempts).pending == w.pending
    ensures Retry(w, attempts).answers == w.answers
    ensures Flush(Retry(w, attempts), now, Lands) == Flush(w, now, Lands)
    decreases |attempts|
  {
    if attempts != [] {
      FlushShape(w, attempts[0].0, attempts[0].1);
      RetryIsIdempotent(Flush(w, attempts[0].0, attempts[0].1), attempts[1..], now);
    }
  }

  // ---- A torn tail that nobody closed -----------------------------------------

  lemma GluedLineParsesToNothing(tail: seq<Cell>, r: Record)
    requires tail != [] && tail[0] != Newline
    ensures ParseLine(tail + Line(r)) == []
  {
    var cells := tail + Line(r);
    var alone := Line(tail[0].record);
    if |alone| == |cells| {
      assert alone[|tail|] != cells[|tail|];
    }
  }

  /** Appending reads as appended exactly when the file ended on a line boundary: a torn
      tail that no one closed (a crash mid-write) swallows the first record. */
  lemma AppendReadsIff(file: seq<Cell>, out: seq<Record>)
    requires out != []
    ensures Parse(file + Print(out)) == Parse(file) + out <==> AtBoundary(file)
  {
    if AtBoundary(file) {
      ParseAppend(file, Print(out));
      ParsePrint(out);
    } else {
      var head := ClosedPart(file);
      var tail := file[|head|..];
      assert file == head + tail;
      TornTailSwallows(head, tail, out);
      ParseAppend(head, tail);
    }
  }

  lemma TornTailSwallows(head: seq<Cell>, tail: seq<Cell>, out: seq<Record>)
    requires out != [] && AtBoundary(head) && tail != []
    requires forall i :: 0 <= i < |tail| ==> tail[i] != Newline
    ensures Parse(head + tail + Print(out)) == Parse(head) + out[1..]
  {
    AssociateConcat(head, tail, Print(out));
    ParseAppend(head, tail + Print(out));
    ParseGlued(tail, out[0], Print(out[1..]));
    AssociateConcat(tail, Line(out[0]) + [Newline], Print(out[1..]));
    AssociateConcat(tail, Line(out[0]), [Newline]);
    ParsePrint(out[1..]);
  }

  lemma ParseGlued(tail: seq<Cell>, r: Record, rest: seq<Cell>)
    requires tail != [] && forall i :: 0 <= i < |tail| ==> tail[i] != Newline
    ensures Parse(tail + Line(r) + [Newline] + rest) == Parse(rest)
  {
    ParseFirst(tail + Line(r), rest);
    GluedLineParsesToNothing(tail, r);
  }

  // ---- Entries that landed are there to be read --------------------------------

  lemma {:induction false} TakeAllKeepsEntries(s: State, rs: seq<Record>)
    ensures EntriesOf(rs) != [] || EntriesOf(Closed(s)) != [] ==> EntriesOf(Closed(TakeAll(s, rs))) != []
    decreases |rs|
  {
    if rs != [] {
      var r := rs[0];
      EntriesOfAppend(Closed(s), [r]);
      assert [r][1..] == [] && [r] + rs[1..] == rs;
      if JoinsOpenRun(s, r) {
        EntriesOfAppend(s.out, [EntryRecord(Fold(s.open.value, r.entry))]);
      }
      TakeAllKeepsEntries(Take(s, r), rs[1..]);
    }
  }

  lemma {:induction false} SomeEntry(batch: seq<Queued>, i: nat)
    requires i < |batch| && batch[i].record.EntryRecord?
    ensures EntriesOf(RecordsOf(batch)) != []
  {
    if i > 0 {
      assert RecordsOf(batch)[1..] == RecordsOf(batch[1..]);
      SomeEntry(batch[1..], i - 1);
    }
  }

  lemma {:induction false} GatheredEntry(log: seq<Event>, k: nat)
    requires k < |log| && EntriesOf(EventRecords(log[k])) != []
    ensures EntriesOf(Gather(log, EventRecords)) != []
  {
    var init := log[..|log| - 1];
    EntriesOfAppend(Gather(init, EventRecords), EventRecords(log[|log| - 1]));
    if k < |log| - 1 { GatheredEntry(init, k); }
  }

  /** An entry whose batch landed is in the file for any reader to find. */
  lemma LandedEntryIsReadable(w: Writer, base: seq<Cell>, k: nat, i: nat)
    requires Readable(w, base) && AtBoundary(base)
    requires k < |w.log| && w.log[k].Landed? && i < |w.log[k].batch|
    requires w.log[k].batch[i].record.EntryRecord?
    ensures EntriesOf(Parse(w.file)) != []
  {
    SomeEntry(w.log[k].batch, i);
    TakeAllKeepsEntries(Begin(w.log[k].live), RecordsOf(w.log[k].batch));
    GatheredEntry(w.log, k);
    EntriesOfAppend(Parse(base), Gather(w.log, EventRecords));
  }
}
