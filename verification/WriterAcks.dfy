/** What a caller's answer is worth: who is told that a record landed, and where it is then. */
module WriterAcks {
  import opened Records
  import opened TranscriptFile
  import opened Compaction
  import opened WriterModel
  import opened WriterTheorems
  import opened WriterHeaders
  import Projection

  // ---- Only headers are repeated -------------------------------------------------

  ghost predicate RepeatsHeaders(log: seq<Event>) {
    forall i :: 0 <= i < |log| && log[i].Repeated? ==> log[i].q.record.HeaderRecord?
  }

  lemma DoRepeatsHeaders(w: Writer, op: Op)
    requires RepeatsHeaders(w.log)
    ensures RepeatsHeaders(Do(w, op).log)
  {
    match op
    case Tick(now, io) => if w.pending != [] && !w.poisoned { FlushShape(w, now, io); }
    case Offer(q, now, sees, io) =>
      if !w.poisoned && !(q.record.HeaderRecord? && HeaderStands(w, sees)) { FlushShape(Buffer(w, q, now), now, io); }
  }

  lemma {:induction false} RunRepeatsHeaders(w: Writer, ops: seq<Op>)
    requires RepeatsHeaders(w.log)
    ensures RepeatsHeaders(Run(w, ops).log)
    decreases |ops|
  {
    if ops != [] {
      DoRepeatsHeaders(w, ops[0]);
      RunRepeatsHeaders(Do(w, ops[0]), ops[1..]);
    }
  }

  // ---- Who is answered yes -------------------------------------------------------

  /** The record is in a batch that landed. */
  ghost predicate IsStored(w: Writer, q: Queued) {
    exists i :: 0 <= i < |w.log| && w.log[i].Landed? && q in w.log[i].batch
  }

  ghost predicate IsRepeat(w: Writer, q: Queued) {
    exists i :: 0 <= i < |w.log| && w.log[i] == Repeated(q)
  }

  lemma AnswerYes(batch: seq<Queued>, landed: bool, t: nat)
    ensures Answer(t, true) in AnswersFor(batch, landed) <==> landed && exists i :: 0 <= i < |batch| && batch[i].ticket == t
  {
    var answers := AnswersFor(batch, landed);
    if Answer(t, true) in answers {
      var i :| 0 <= i < |answers| && answers[i] == Answer(t, true);
      assert batch[i].ticket == t;
    }
    if i :| landed && 0 <= i < |batch| && batch[i].ticket == t {
      assert answers[i] == Answer(t, true);
    }
  }

  /** A yes was given for some record with that ticket, landed or repeated. */
  lemma {:induction false} YesHasItsEvent(log: seq<Event>, t: nat) returns (i: nat, q: Queued)
    requires Answer(t, true) in Gather(log, EventAnswers)
    ensures i < |log| && q.ticket == t && ((log[i].Landed? && q in log[i].batch) || log[i] == Repeated(q))
  {
    var init, e := log[..|log| - 1], log[|log| - 1];
    if Answer(t, true) in EventAnswers(e) {
      i := |log| - 1;
      match e {
        case Landed(batch, _) =>
          AnswerYes(batch, true, t);
          var k :| 0 <= k < |batch| && batch[k].ticket == t;
          q := batch[k];
        case Repeated(r) => q := r;
        case Abandoned(batch, _, _, _) => AnswerYes(batch, false, t);
        case Refused(_) =>
      }
    } else {
      i, q := YesHasItsEvent(init, t);
      assert log[i] == init[i];
    }
  }

  lemma {:induction false} EventGivesYes(log: seq<Event>, i: nat, q: Queued)
    requires i < |log| && ((log[i].Landed? && q in log[i].batch) || log[i] == Repeated(q))
    ensures Answer(q.ticket, true) in Gather(log, EventAnswers)
  {
    var init, e := log[..|log| - 1], log[|log| - 1];
    if i == |log| - 1 {
      if e.Landed? {
        AnswerYes(e.batch, true, q.ticket);
        var k :| 0 <= k < |e.batch| && e.batch[k] == q;
        assert e.batch[k].ticket == q.ticket;
      }
    } else {
      EventGivesYes(init, i, q);
    }
  }

  lemma {:induction false} BatchIsGathered(log: seq<Event>, i: nat, q: Queued)
    requires i < |log| && q in EventBatch(log[i])
    ensures q in Gather(log, EventBatch)
  {
    if i < |log| - 1 { BatchIsGathered(log[..|log| - 1], i, q); }
  }

  lemma {:induction false} TurnedIsGathered(log: seq<Event>, i: nat, q: Queued)
    requires i < |log| && q in Turned(log[i])
    ensures q in Gather(log, Turned)
  {
    if i < |log| - 1 { TurnedIsGathered(log[..|log| - 1], i, q); }
  }

  /** Every record a run decided about was offered to it. */
  lemma DecidedWasOffered(base: seq<Cell>, ops: seq<Op>, i: nat, q: Queued)
    requires var log := Run(NewWriter(base), ops).log;
             i < |log| && (q in EventBatch(log[i]) || q in Turned(log[i]))
    ensures q in OfferedIn(ops)
  {
    var w := Run(NewWriter(base), ops);
    EveryRecordOnce(base, ops);
    if q in EventBatch(w.log[i]) {
      BatchIsGathered(w.log, i, q);
      assert q in w.accepted && q in multiset(w.accepted);
    } else {
      TurnedIsGathered(w.log, i, q);
      assert q in multiset(Gather(w.log, Turned));
    }
    assert q in multiset(OfferedIn(ops));
  }

  /** Each caller waits on an ack of its own. */
  ghost predicate OwnTickets(ops: seq<Op>) {
    forall a, b :: a in OfferedIn(ops) && b in OfferedIn(ops) && a.ticket == b.ticket ==> a == b
  }

  /** A caller is told that its record landed if and only if the record is in a landed batch,
      or is a header that repeats one already known. */
  lemma AckedIff(base: seq<Cell>, ops: seq<Op>, q: Queued)
    requires OwnTickets(ops) && q in OfferedIn(ops)
    ensures var w := Run(NewWriter(base), ops);
            && (Answer(q.ticket, true) in w.answers <==> IsStored(w, q) || IsRepeat(w, q))
            && (IsRepeat(w, q) ==> q.record.HeaderRecord?)
  {
    var w := Run(NewWriter(base), ops);
    EveryRecordOnce(base, ops);
    RunRepeatsHeaders(NewWriter(base), ops);
    if Answer(q.ticket, true) in w.answers {
      var i, other := YesHasItsEvent(w.log, q.ticket);
      DecidedWasOffered(base, ops, i, other);
      assert other == q;
    }
    if i :| 0 <= i < |w.log| && ((w.log[i].Landed? && q in w.log[i].batch) || w.log[i] == Repeated(q)) {
      EventGivesYes(w.log, i, q);
    }
  }

  // ---- What is stored can be read ------------------------------------------------

  predicate PartAt(text: string, part: string, i: nat) {
    i + |part| <= |text| && text[i..i + |part|] == part
  }

  ghost predicate Contains(text: string, part: string) {
    exists i: nat :: PartAt(text, part, i)
  }

  /** A line that says what the record said: the record itself, or the merged chunk its text
      went into. */
  ghost predicate Carries(line: Record, r: Record) {
    || line == r
    || (line.EntryRecord? && r.EntryRecord? && SameRun(line.entry, r.entry)
        && Contains(line.entry.update.content.text, r.entry.update.content.text))
  }

  ghost predicate SomeCarries(lines: seq<Record>, r: Record) {
    exists k :: 0 <= k < |lines| && Carries(lines[k], r)
  }

  lemma CarriesLonger(a: seq<Record>, b: seq<Record>, r: Record)
    ensures SomeCarries(a, r) ==> SomeCarries(a + b, r) && SomeCarries(b + a, r)
  {
    if k :| 0 <= k < |a| && Carries(a[k], r) {
      assert (a + b)[k] == a[k] && (b + a)[|b| + k] == a[k];
    }
  }

  lemma FoldCarries(open: Entry, next: Entry, r: Record)
    requires SameRun(open, next)
    ensures Carries(EntryRecord(Fold(open, next)), EntryRecord(next))
    ensures Carries(EntryRecord(open), r) ==> Carries(EntryRecord(Fold(open, next)), r)
  {
    var x, y := open.update.content.text, next.update.content.text;
    assert PartAt(x + y, y, |x|) && PartAt(x + y, x, 0);
    if Carries(EntryRecord(open), r) && r != EntryRecord(open) {
      var part := r.entry.update.content.text;
      var i: nat :| PartAt(x, part, i);
      assert PartAt(x + y, part, i);
    }
  }

  lemma TakeCarries(s: State, x: Record, r: Record)
    ensures SomeCarries(Closed(Take(s, x)), x)
    ensures SomeCarries(Closed(s), r) ==> SomeCarries(Closed(Take(s, x)), r)
  {
    var after := Closed(Take(s, x));
    if JoinsOpenRun(s, x) {
      FoldCarries(s.open.value, x.entry, r);
      assert after[|s.out|] == EntryRecord(Fold(s.open.value, x.entry));
      if k :| 0 <= k < |Closed(s)| && Carries(Closed(s)[k], r) {
        assert Carries(after[k], r);
      }
    } else {
      assert after == Closed(s) + [x] && after[|Closed(s)|] == x;
      CarriesLonger(Closed(s), [x], r);
    }
  }

  /** Compacting loses nothing: every record of a batch is carried by some line of it. */
  lemma {:induction false} CompactCarries(s: State, rs: seq<Record>, r: Record)
    requires r in rs || SomeCarries(Closed(s), r)
    ensures SomeCarries(Closed(TakeAll(s, rs)), r)
    decreases |rs|
  {
    if rs != [] {
      TakeCarries(s, rs[0], r);
      CompactCarries(Take(s, rs[0]), rs[1..], r);
    }
  }

  lemma {:induction false} GatherCarries(log: seq<Event>, i: nat, r: Record)
    requires i < |log| && SomeCarries(EventRecords(log[i]), r)
    ensures SomeCarries(Gather(log, EventRecords), r)
  {
    var init := log[..|log| - 1];
    if i == |log| - 1 {
      CarriesLonger(EventRecords(log[i]), Gather(init, EventRecords), r);
    } else {
      GatherCarries(init, i, r);
      CarriesLonger(Gather(init, EventRecords), EventRecords(log[|log| - 1]), r);
    }
  }

  /** An ack means stored, for entries: over every run, an entry whose caller was told yes is
      in a landed batch, and on a file that ended on a line boundary some line of the parsed
      file carries it, its text whole. */
  lemma AckedEntryIsStored(base: seq<Cell>, ops: seq<Op>, q: Queued)
    requires OwnTickets(ops) && q in OfferedIn(ops) && q.record.EntryRecord?
    requires Answer(q.ticket, true) in Run(NewWriter(base), ops).answers
    ensures IsStored(Run(NewWriter(base), ops), q)
    ensures AtBoundary(base) ==> SomeCarries(Parse(Run(NewWriter(base), ops).file), q.record)
  {
    var w := Run(NewWriter(base), ops);
    AckedIff(base, ops, q);
    var i :| 0 <= i < |w.log| && w.log[i].Landed? && q in w.log[i].batch;
    if AtBoundary(base) {
      var batch := w.log[i].batch;
      var k :| 0 <= k < |batch| && batch[k] == q;
      assert RecordsOf(batch)[k] == q.record;
      CompactCarries(Begin(w.log[i].live), RecordsOf(batch), q.record);
      GatherCarries(w.log, i, q.record);
      FileHoldsWhatLanded(base, ops);
      CarriesLonger(Gather(w.log, EventRecords), Parse(base), q.record);
    }
  }

  // ---- A repeated header's ack ---------------------------------------------------

  /** What a live writer knows of a header is still to be seen: buffered, or in the file. */
  ghost predicate KnowsFromSight(w: Writer) {
    w.headerWritten && !w.poisoned ==> HoldsHeader(w.pending) || w.file != []
  }

  lemma FlushKnowsFromSight(w: Writer, now: nat, io: Io)
    requires KnowsFromSight(w)
    ensures KnowsFromSight(Flush(w, now, io))
  {
    if w.pending != [] && !w.poisoned {
      FlushShape(w, now, io);
      CompactNonEmpty(RecordsOf(w.pending), w.compactable);
    }
  }

  lemma BufferKnowsFromSight(w: Writer, q: Queued, now: nat)
    requires KnowsFromSight(w)
    ensures KnowsFromSight(Buffer(w, q, now))
  {
    if i :| 0 <= i < |w.pending| && w.pending[i].record.HeaderRecord? {
      assert Buffer(w, q, now).pending[i] == w.pending[i];
    }
  }

  lemma {:induction false} RunKnowsFromSight(w: Writer, ops: seq<Op>)
    requires KnowsFromSight(w)
    ensures KnowsFromSight(Run(w, ops))
    decreases |ops|
  {
    if ops != [] {
      match ops[0] {
        case Tick(now, io) => FlushKnowsFromSight(w, now, io);
        case Offer(q, now, sees, io) =>
          BufferKnowsFromSight(w, q, now);
          FlushKnowsFromSight(Buffer(w, q, now), now, io);
      }
      RunKnowsFromSight(Do(w, ops[0]), ops[1..]);
    }
  }

  /** The header is acked on the spot, and no header can be read from the file. */
  ghost predicate AckedAhead(w: Writer, h: Queued, now: nat, sees: bool, io: Io) {
    && HeaderCount(Parse(w.file)) == 0
    && Accept(w, h, now, sees, io).log == w.log + [Repeated(h)]
  }

  /** The exact state in which a header's ack runs ahead of storage, in every reachable state:
      no header reads back, and either one is still in the buffer, or the file holds
      something else and the writer has looked. */
  lemma AckedAheadIff(base: seq<Cell>, ops: seq<Op>, h: Queued, now: nat, sees: bool, io: Io)
    requires h.record.HeaderRecord?
    ensures var w := Run(NewWriter(base), ops);
            AckedAhead(w, h, now, sees, io) <==>
            && !w.poisoned && HeaderCount(Parse(w.file)) == 0
            && (HoldsHeader(w.pending) || (w.file != [] && (sees || w.headerWritten)))
  {
    var w := Run(NewWriter(base), ops);
    RunKnowsFromSight(NewWriter(base), ops);
    var log := Accept(w, h, now, sees, io).log;
    if w.poisoned {
      assert log[|w.log|] == Refused(h);
    } else if !HeaderStands(w, sees) {
      var b := Buffer(w, h, now);
      FlushShape(b, now, io);
      assert |log| == |w.log| || !log[|w.log|].Repeated?;
    }
  }

  /** A header that repeats one still in the buffer is acked before anything is stored. */
  lemma RepeatedHeaderAckedEarly(h: Header)
    ensures var w := Run(NewWriter([]), [Offer(Queued(0, HeaderRecord(h)), 0, true, CannotOpen),
                                         Offer(Queued(1, HeaderRecord(h)), 0, true, CannotOpen)]);
            w.answers == [Answer(1, true)] && w.file == []
  {
    var q0, q1 := Queued(0, HeaderRecord(h)), Queued(1, HeaderRecord(h));
    var ops := [Offer(q0, 0, true, CannotOpen), Offer(q1, 0, true, CannotOpen)];
    var b := Buffer(NewWriter([]), q0, 0);
    FlushShape(b, 0, CannotOpen);
    var w := Do(NewWriter([]), ops[0]);
    assert w == Defer(b, 0) && w.pending[0] == q0;
    assert HoldsHeader(w.pending);
    assert ops[1..][1..] == [];
    assert Run(w, ops[1..]) == Run(Do(w, ops[1]), []);
  }

  /** A header that comes after an entry is acked and never stored. */
  lemma LateHeaderIsNeverStored(e: Entry, h: Header)
    requires IsBoundary(EntryRecord(e))
    ensures var w := Run(NewWriter([]), [Offer(Queued(0, EntryRecord(e)), 0, true, Lands),
                                         Offer(Queued(1, HeaderRecord(h)), 0, true, Lands)]);
            && Answer(1, true) in w.answers && w.pending == []
            && HeaderCount(Parse(w.file)) == 0
  {
    var q0, q1, r := Queued(0, EntryRecord(e)), Queued(1, HeaderRecord(h)), EntryRecord(e);
    var ops := [Offer(q0, 0, true, Lands), Offer(q1, 0, true, Lands)];
    var b := Buffer(NewWriter([]), q0, 0);
    assert b.pending == [q0] && RecordsOf([q0]) == [r];
    FlushShape(b, 0, Lands);
    CompactOne(r);
    var w := Do(NewWriter([]), ops[0]);
    assert w.file == [] + Print([r]) == Print([r]);
    assert Print([r])[0] == Line(r)[0];
    ParsePrint([r]);
    assert [r][1..] == [];
    assert ops[1..][1..] == [];
    assert Run(w, ops[1..]) == Run(Do(w, ops[1]), []);
  }
}
