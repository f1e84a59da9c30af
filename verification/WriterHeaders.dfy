/** Headers: how many a run of a session's writer can leave in the file, and what their
    acks are worth. */
module WriterHeaders {
  import opened Records
  import opened TranscriptFile
  import opened Compaction
  import opened WriterModel
  import opened WriterTheorems
  import Projection

  /** The file holds something, no header is known of, and the lookup of its size failed:
      the one way a header is let onto a file that is not empty. */
  predicate IsBlind(w: Writer, op: Op) {
    && op.Offer? && op.q.record.HeaderRecord?
    && !w.poisoned && w.file != [] && !HeaderStands(w, op.sees)
  }

  function BlindOffers(w: Writer, ops: seq<Op>): nat
    decreases |ops|
  {
    if ops == [] then 0 else (if IsBlind(w, ops[0]) then 1 else 0) + BlindOffers(Do(w, ops[0]), ops[1..])
  }

  /** At most `bound` headers were ever accepted, the first only onto an empty file. */
  ghost predicate BoundedHeaders(w: Writer, bound: nat) {
    && HeaderCount(RecordsOf(w.accepted)) <= bound
    && (w.file == [] && !w.poisoned ==> w.accepted == w.pending)
  }

  lemma {:induction false} NoHeaderCountsZero(batch: seq<Queued>)
    requires !HoldsHeader(batch)
    ensures HeaderCount(RecordsOf(batch)) == 0
  {
    if batch != [] {
      assert RecordsOf(batch)[1..] == RecordsOf(batch[1..]);
      assert !HoldsHeader(batch[1..]) by {
        forall i | 0 <= i < |batch[1..]| ensures !batch[1..][i].record.HeaderRecord? {
          assert batch[1..][i] == batch[i + 1];
        }
      }
      NoHeaderCountsZero(batch[1..]);
    }
  }

  lemma BufferKeepsBound(w: Writer, q: Queued, now: nat, bound: nat)
    requires BoundedHeaders(w, bound)
    ensures BoundedHeaders(Buffer(w, q, now), bound + if q.record.HeaderRecord? then 1 else 0)
    ensures w.file == [] && !w.poisoned && !HoldsHeader(w.pending) && bound > 0 ==>
              BoundedHeaders(Buffer(w, q, now), bound)
  {
    assert RecordsOf(w.accepted + [q]) == RecordsOf(w.accepted) + [q.record];
    HeaderCountAppend(RecordsOf(w.accepted), [q.record]);
    assert [q.record][1..] == [] && HeaderCount([]) == 0;
    if !HoldsHeader(w.pending) { NoHeaderCountsZero(w.pending); }
  }

  lemma FlushKeepsBound(w: Writer, now: nat, io: Io, bound: nat)
    requires BoundedHeaders(w, bound)
    ensures BoundedHeaders(Flush(w, now, io), bound)
  {
    if w.pending != [] && !w.poisoned {
      FlushShape(w, now, io);
      if io.Lands? || io.Torn? {
        CompactNonEmpty(RecordsOf(w.pending), w.compactable);
        assert EventCells(FlushEvent(w, io)) != [] || (io.Torn? && !io.newline);
      }
    }
  }

  lemma DoKeepsBound(w: Writer, op: Op, bound: nat)
    requires BoundedHeaders(w, bound) && (w.file == [] ==> bound > 0)
    ensures BoundedHeaders(Do(w, op), bound + if IsBlind(w, op) then 1 else 0)
  {
    match op
    case Tick(now, io) => FlushKeepsBound(w, now, io, bound);
    case Offer(q, now, sees, io) =>
      if !w.poisoned && !(q.record.HeaderRecord? && HeaderStands(w, sees)) {
        BufferKeepsBound(w, q, now, bound);
        FlushKeepsBound(Buffer(w, q, now), now, io, bound + if IsBlind(w, op) then 1 else 0);
      }
  }

  lemma {:induction false} RunKeepsBound(w: Writer, ops: seq<Op>, bound: nat)
    requires BoundedHeaders(w, bound) && (w.file == [] ==> bound > 0)
    ensures BoundedHeaders(Run(w, ops), bound + BlindOffers(w, ops))
    decreases |ops|
  {
    if ops != [] {
      DoKeepsBound(w, ops[0], bound);
      DoKeepsFile(w, ops[0]);
      RunKeepsBound(Do(w, ops[0]), ops[1..], bound + if IsBlind(w, ops[0]) then 1 else 0);
    }
  }

  // ---- What the writer knows of a header -------------------------------------------

  /** A step of the log that shows a header in place: it landed, or one was answered at sight. */
  predicate ShowsHeader(e: Event) { e.Repeated? || (e.Landed? && HoldsHeader(e.batch)) }

  ghost predicate HeaderShown(log: seq<Event>) {
    exists i :: 0 <= i < |log| && ShowsHeader(log[i])
  }

  lemma HeaderShownNext(log: seq<Event>, e: Event)
    ensures HeaderShown(log + [e]) <==> HeaderShown(log) || ShowsHeader(e)
  {
    assert (log + [e])[|log|] == e;
    if i :| 0 <= i < |log| && ShowsHeader(log[i]) { assert ShowsHeader((log + [e])[i]); }
  }

  lemma FlushKeepsFlag(w: Writer, now: nat, io: Io)
    requires w.headerWritten <==> HeaderShown(w.log)
    ensures Flush(w, now, io).headerWritten <==> HeaderShown(Flush(w, now, io).log)
  {
    if w.pending != [] && !w.poisoned {
      CompactNonEmpty(RecordsOf(w.pending), w.compactable);
      FlushShape(w, now, io);
      if io.Lands? || io.Torn? { HeaderShownNext(w.log, FlushEvent(w, io)); }
    }
  }

  lemma DoKeepsFlag(w: Writer, op: Op)
    requires w.headerWritten <==> HeaderShown(w.log)
    ensures Do(w, op).headerWritten <==> HeaderShown(Do(w, op).log)
  {
    match op
    case Tick(now, io) => FlushKeepsFlag(w, now, io);
    case Offer(q, now, sees, io) =>
      FlushKeepsFlag(Buffer(w, q, now), now, io);
      HeaderShownNext(w.log, Refused(q));
      HeaderShownNext(w.log, Repeated(q));
  }

  /** What a writer remembers of a header, exactly: over every run it knows of one without
      looking if and only if one landed, or one was answered because the file or the buffer
      held something. An abandoned header is not remembered. */
  lemma {:induction false} HeaderFlagMeans(w: Writer, ops: seq<Op>)
    requires w.headerWritten <==> HeaderShown(w.log)
    ensures Run(w, ops).headerWritten <==> HeaderShown(Run(w, ops).log)
    decreases |ops|
  {
    if ops != [] {
      DoKeepsFlag(w, ops[0]);
      HeaderFlagMeans(Do(w, ops[0]), ops[1..]);
    }
  }

  // ---- Headers in the file -------------------------------------------------------

  lemma {:induction false} TakeAllKeepsHeaders(s: State, rs: seq<Record>)
    ensures HeaderCount(Closed(TakeAll(s, rs))) == HeaderCount(Closed(s)) + HeaderCount(rs)
    decreases |rs|
  {
    if rs != [] {
      var t := Take(s, rs[0]);
      assert [rs[0]] + rs[1..] == rs && [rs[0]][1..] == [];
      TakeKeepsHeaders(s, rs[0]);
      TakeAllKeepsHeaders(t, rs[1..]);
    }
  }

  lemma TakeKeepsHeaders(s: State, r: Record)
    ensures HeaderCount(Closed(Take(s, r))) == HeaderCount(Closed(s)) + (if r.HeaderRecord? then 1 else 0)
  {
    assert [r][1..] == [];
    HeaderCountAppend(Closed(s), [r]);
    if JoinsOpenRun(s, r) {
      var x, y := EntryRecord(s.open.value), EntryRecord(Fold(s.open.value, r.entry));
      assert [x][1..] == [] && [y][1..] == [];
      HeaderCountAppend(s.out, [x]);
      HeaderCountAppend(s.out, [y]);
    }
  }

  lemma EventHeaders(e: Event)
    ensures HeaderCount(EventRecords(e)) <= HeaderCount(RecordsOf(EventBatch(e)))
  {
    if e.Landed? || e.Abandoned? {
      var rs := RecordsOf(e.batch);
      var out := Compact(rs, e.live).0;
      TakeAllKeepsHeaders(Begin(e.live), rs);
      if e.Abandoned? {
        var whole := WholeLines(out, e.wrote);
        assert out == whole + out[|whole|..];
        HeaderCountAppend(whole, out[|whole|..]);
      }
    }
  }

  lemma {:induction false} LogHeaders(log: seq<Event>)
    ensures HeaderCount(Gather(log, EventRecords)) <= HeaderCount(RecordsOf(Gather(log, EventBatch)))
  {
    if log != [] {
      var init, e := log[..|log| - 1], log[|log| - 1];
      LogHeaders(init);
      EventHeaders(e);
      HeaderCountAppend(Gather(init, EventRecords), EventRecords(e));
      assert RecordsOf(Gather(log, EventBatch)) == RecordsOf(Gather(init, EventBatch)) + RecordsOf(EventBatch(e));
      HeaderCountAppend(RecordsOf(Gather(init, EventBatch)), RecordsOf(EventBatch(e)));
    }
  }

  /** However many headers are offered and however the disk behaves, a run adds at most one
      header line to an empty file and none to any other, and one more for each header let
      on blindly. */
  lemma AtMostOneHeader(base: seq<Cell>, ops: seq<Op>)
    requires AtBoundary(base)
    ensures var w := Run(NewWriter(base), ops);
            HeaderCount(Parse(w.file)) <=
            HeaderCount(Parse(base)) + (if base == [] then 1 else 0) + BlindOffers(NewWriter(base), ops)
  {
    var w, bound := Run(NewWriter(base), ops), if base == [] then 1 else 0;
    NewWriterInv(base, Projection.START);
    RunKeepsInv(NewWriter(base), base, Projection.START, ops);
    RunKeepsBound(NewWriter(base), ops, bound);
    LoggedHeaders(w, base, bound + BlindOffers(NewWriter(base), ops));
    HeaderCountAppend(Parse(base), Gather(w.log, EventRecords));
  }

  lemma LoggedHeaders(w: Writer, base: seq<Cell>, bound: nat)
    requires Books(w, base) && BoundedHeaders(w, bound)
    ensures HeaderCount(Gather(w.log, EventRecords)) <= bound
  {
    LogHeaders(w.log);
    PartHasFewerHeaders(Gather(w.log, EventBatch), w.pending);
  }

  lemma PartHasFewerHeaders(a: seq<Queued>, b: seq<Queued>)
    ensures HeaderCount(RecordsOf(a)) <= HeaderCount(RecordsOf(a + b))
  {
    assert RecordsOf(a + b) == RecordsOf(a) + RecordsOf(b);
    HeaderCountAppend(RecordsOf(a), RecordsOf(b));
  }

  /** One header written straight through, exactly: onto a file that holds something it adds
      a header line if and only if it was let on blindly. */
  lemma SecondHeaderIff(w: Writer, h: Queued, now: nat, sees: bool)
    requires h.record.HeaderRecord? && !w.poisoned && w.pending == [] && w.file != [] && AtBoundary(w.file)
    ensures HeaderCount(Parse(Accept(w, h, now, sees, Lands).file)) ==
            HeaderCount(Parse(w.file)) + (if IsBlind(w, Offer(h, now, sees, Lands)) then 1 else 0)
  {
    if !HeaderStands(w, sees) {
      var b := Buffer(w, h, now);
      assert b.pending == [h] && RecordsOf([h]) == [h.record];
      FlushShape(b, now, Lands);
      TakeAllSnoc(Begin(w.compactable), [], h.record);
      assert [] + [h.record] == [h.record];
      assert Compact([h.record], w.compactable).0 == [h.record];
      EventReads(Landed([h], w.compactable));
      ParseAppend(w.file, EventCells(Landed([h], w.compactable)));
      HeaderCountAppend(Parse(w.file), [h.record]);
      assert [h.record][1..] == [];
    }
  }

  /** And so it happens: a new writer over a stored header, one failed lookup, and the file
      has two. */
  lemma BlindHeaderIsStoredTwice(h: Header)
    ensures var base := Print([HeaderRecord(h)]);
            var w := Run(NewWriter(base), [Offer(Queued(0, HeaderRecord(h)), 0, false, Lands)]);
            HeaderCount(Parse(base)) == 1 && HeaderCount(Parse(w.file)) == 2
  {
    var q, r := Queued(0, HeaderRecord(h)), HeaderRecord(h);
    var base := Print([r]);
    ParsePrint([r]);
    PrintAtBoundary([r]);
    assert [r][1..] == [];
    SecondHeaderIff(NewWriter(base), q, 0, false);
    var ops := [Offer(q, 0, false, Lands)];
    assert ops[1..] == [];
    assert Run(NewWriter(base), ops) == Do(NewWriter(base), ops[0]);
  }
}
