/** Abandoned writes: when a writer falls out of step with its file, and when it cannot. */
module WriterInStep {
  import opened Records
  import opened TranscriptFile
  import opened Compaction
  import opened Projection
  import opened WriterModel
  import opened WriterTheorems

  function LiveThrough(live: bool, rs: seq<Record>): bool
    decreases |rs|
  {
    if rs == [] then live else LiveThrough(LiveAfter(live, rs[0]), rs[1..])
  }

  /** Lines that do not end the turn leave the reader in it. */
  lemma {:induction false} LandedPartKeepsStep(r: Reader, rs: seq<Record>, live: bool)
    requires live ==> InTurn(r)
    ensures LiveThrough(live, rs) ==> InTurn(Read(r, EntriesOf(rs)))
    decreases |rs|
  {
    if rs != [] {
      assert rs == [rs[0]] + rs[1..];
      EntriesOfAppend([rs[0]], rs[1..]);
      ReadAppend(r, EntriesOf([rs[0]]), EntriesOf(rs[1..]));
      ReadSnoc(r, [], rs[0]);
      assert [] + [rs[0]] == [rs[0]];
      if rs[0].EntryRecord? { StepInTurn(r, rs[0].entry); }
      LandedPartKeepsStep(Read(r, EntriesOf([rs[0]])), rs[1..], LiveAfter(live, rs[0]));
    }
  }

  /** What landed of each batch abandoned in a live turn does not end that turn. */
  predicate KeepsTurns(log: seq<Event>) {
    forall i :: 0 <= i < |log| && log[i].Abandoned? && log[i].live ==> LiveThrough(true, EventRecords(log[i]))
  }

  lemma EventKeepsStep(w: Writer, r: Reader, e: Event, f: Writer)
    requires Meant(w, r) && (KeepsTurns(w.log) ==> NeverLags(r, w.log))
    requires f.log == w.log + [e] && (e.Abandoned? ==> e.live == w.compactable)
    ensures KeepsTurns(f.log) ==> NeverLags(r, f.log)
  {
    assert f.log[..|f.log| - 1] == w.log;
    if KeepsTurns(f.log) {
      assert KeepsTurns(w.log) by {
        forall i | 0 <= i < |w.log| && w.log[i].Abandoned? && w.log[i].live
          ensures LiveThrough(true, EventRecords(w.log[i]))
        {
          assert f.log[i] == w.log[i];
        }
      }
      assert f.log[|w.log|] == e;
      if e.Abandoned? && e.live {
        LandedPartKeepsStep(ReadLog(r, w.log), EventRecords(e), true);
        ReadGatherSnoc(r, w.log, e, EventRecords);
      }
    }
  }

  lemma FlushKeepsStep(w: Writer, r: Reader, now: nat, io: Io)
    requires Meant(w, r) && (KeepsTurns(w.log) ==> NeverLags(r, w.log))
    ensures KeepsTurns(Flush(w, now, io).log) ==> NeverLags(r, Flush(w, now, io).log)
  {
    if w.pending != [] && !w.poisoned {
      FlushShape(w, now, io);
      if io.Lands? || io.Torn? { EventKeepsStep(w, r, FlushEvent(w, io), Flush(w, now, io)); }
    }
  }

  lemma DoKeepsStep(w: Writer, r: Reader, op: Op)
    requires Meant(w, r) && (KeepsTurns(w.log) ==> NeverLags(r, w.log))
    ensures KeepsTurns(Do(w, op).log) ==> NeverLags(r, Do(w, op).log)
  {
    match op
    case Tick(now, io) => FlushKeepsStep(w, r, now, io);
    case Offer(q, now, sees, io) =>
      if w.poisoned { EventKeepsStep(w, r, Refused(q), Do(w, op)); }
      else if q.record.HeaderRecord? && HeaderStands(w, sees) { EventKeepsStep(w, r, Repeated(q), Do(w, op)); }
      else { FlushKeepsStep(Buffer(w, q, now), r, now, io); }
  }

  lemma {:induction false} RunKeepsStep(w: Writer, base: seq<Cell>, r: Reader, ops: seq<Op>)
    requires Inv(w, base, r) && (KeepsTurns(w.log) ==> NeverLags(r, w.log))
    ensures KeepsTurns(Run(w, ops).log) ==> NeverLags(r, Run(w, ops).log)
    decreases |ops|
  {
    if ops != [] {
      DoKeepsStep(w, r, ops[0]);
      DoKeepsInv(w, base, r, ops[0]);
      RunKeepsStep(Do(w, ops[0]), base, r, ops[1..]);
    }
  }

  /** With abandoned writes too, as long as what landed of each one written in a live turn did
      not end it, the conversation read from the file is that of the landed batches verbatim
      and the whole lines of the abandoned ones. */
  lemma KeptTurnsPreserveMeaning(base: seq<Cell>, ops: seq<Op>)
    requires AtBoundary(base) && KeepsTurns(Run(NewWriter(base), ops).log)
    ensures var w := Run(NewWriter(base), ops);
            Project(EntriesOf(Parse(w.file))) == Project(EntriesOf(Parse(base) + Gather(w.log, EventVerbatim)))
  {
    var w := Run(NewWriter(base), ops);
    var r := Read(START, EntriesOf(Parse(base)));
    NewWriterInv(base, r);
    RunKeepsStep(NewWriter(base), base, r, ops);
    RunKeepsInv(NewWriter(base), base, r, ops);
    EntriesOfAppend(Parse(base), Gather(w.log, EventRecords));
    EntriesOfAppend(Parse(base), Gather(w.log, EventVerbatim));
    ReadAppend(START, EntriesOf(Parse(base)), EntriesOf(Gather(w.log, EventRecords)));
    ReadAppend(START, EntriesOf(Parse(base)), EntriesOf(Gather(w.log, EventVerbatim)));
  }

  /** What an abandoned batch leaves reads as the first records of it, whole, for a reader its
      writer was in step with. */
  lemma AbandonedReadsAsPrefix(r: Reader, e: Event) returns (k: nat)
    requires e.Abandoned? && (e.live ==> InTurn(r))
    ensures k <= |e.batch| && Read(r, EntriesOf(EventRecords(e))) == Read(r, EntriesOf(RecordsOf(e.batch)[..k]))
  {
    var out := Compact(RecordsOf(e.batch), e.live).0;
    var whole := WholeLines(out, e.wrote);
    assert whole == out[..|whole|];
    k := CutReadsAsPrefix(r, RecordsOf(e.batch), e.live, |whole|);
  }

  // ---- A run that falls out of step ----------------------------------------------

  const ASKED := Queued(0, EntryRecord(Prompt(0, [], false)))
  const ENDED := Queued(1, EntryRecord(TurnEnd(1, None, None, None)))
  const FIRST := Updated(5, AgentChunk(Message, Plain("a"), None))
  const NEXT := Updated(6, AgentChunk(Message, Plain("b"), None))

  /** A prompt lands; its turn end is torn after its last character, and the newline that
      follows closes the line; the agent then streams on its own, and that is flushed. */
  function LaggingRun(): seq<Op> {
    [Offer(ASKED, 0, true, Lands)] + [Offer(ENDED, 1, true, Torn(2, true))]
    + [Offer(Queued(2, EntryRecord(FIRST)), 5, true, Lands)] + [Offer(Queued(3, EntryRecord(NEXT)), 6, true, Lands)]
    + [Tick(5 + FLUSH_WINDOW_MS, Lands)]
  }

  lemma TurnEndIsTorn(w: Writer)
    requires w.pending == [] && !w.poisoned && w.compactable
    ensures var f := Do(w, Offer(ENDED, 1, true, Torn(2, true)));
            && f.pending == [] && !f.poisoned && f.compactable && f.oldestPendingAt.None?
            && f.log == w.log + [Abandoned([ENDED], true, 2, true)]
    ensures EventRecords(Abandoned([ENDED], true, 2, true)) == [ENDED.record]
  {
    var b, r := Buffer(w, ENDED, 1), ENDED.record;
    assert b.pending == [ENDED] && RecordsOf([ENDED]) == [r];
    TakeAllSnoc(Begin(true), [], r);
    assert [] + [r] == [r];
    assert Compact([r], true).0 == [r];
    FlushShape(b, 1, Torn(2, true));
    assert Print([r]) == Line(r) + [Newline] + Print([]);
  }

  lemma PromptLands()
    ensures var f := Do(NewWriter([]), Offer(ASKED, 0, true, Lands));
            f.pending == [] && !f.poisoned && f.compactable && f.log == [Landed([ASKED], false)]
    ensures EventRecords(Landed([ASKED], false)) == [ASKED.record]
  {
    var b := Buffer(NewWriter([]), ASKED, 0);
    assert b.pending == [ASKED] && RecordsOf([ASKED]) == [ASKED.record];
    CompactOne(ASKED.record);
    FlushShape(b, 0, Lands);
    assert [] + [Landed([ASKED], false)] == [Landed([ASKED], false)];
  }

  lemma StreamIsMerged(w: Writer)
    requires w.pending == [] && !w.poisoned && w.compactable && w.oldestPendingAt.None?
    ensures var q0, q1 := Queued(2, EntryRecord(FIRST)), Queued(3, EntryRecord(NEXT));
            var f := Do(Do(Do(w, Offer(q0, 5, true, Lands)), Offer(q1, 6, true, Lands)), Tick(5 + FLUSH_WINDOW_MS, Lands));
            f.log == w.log + [Landed([q0, q1], true)]
    ensures var e := Landed([Queued(2, EntryRecord(FIRST)), Queued(3, EntryRecord(NEXT))], true);
            && EventRecords(e) == [EntryRecord(Fold(FIRST, NEXT))]
            && EventVerbatim(e) == [EntryRecord(FIRST), EntryRecord(NEXT)]
  {
    var q0, q1 := Queued(2, EntryRecord(FIRST)), Queued(3, EntryRecord(NEXT));
    var w1 := Buffer(w, q0, 5);
    assert w1.pending == [q0] && Do(w, Offer(q0, 5, true, Lands)) == w1;
    var w2 := Buffer(w1, q1, 6);
    assert w2.pending == [q0, q1] && Do(w1, Offer(q1, 6, true, Lands)) == w2;
    FlushShape(w2, 5 + FLUSH_WINDOW_MS, Lands);
    var x, y := EntryRecord(FIRST), EntryRecord(NEXT);
    assert RecordsOf([q0, q1]) == [x, y];
    TakeAllSnoc(Begin(true), [x], y);
    TakeAllSnoc(Begin(true), [], x);
    assert [] + [x] == [x] && [x] + [y] == [x, y];
    assert [] + [EntryRecord(Fold(FIRST, NEXT))] == [EntryRecord(Fold(FIRST, NEXT))];
  }

  /** The two readings of what the agent streamed after the turn end differ in where its turn
      starts. */
  lemma StartsDiffer(r: Reader)
    requires r.pending.None? && r.startHint.None? && !r.proseOpen
    ensures Turns(Read(r, [Fold(FIRST, NEXT)])) != Turns(Read(r, [FIRST, NEXT]))
  {
    var merged, apart := [Fold(FIRST, NEXT)], [FIRST, NEXT];
    assert merged[..0] == [] && apart[..1] == [FIRST] && [FIRST][..0] == [];
    assert StreamedText(merged, Message) != "" && StreamedText(apart, Message) != "";
    ReplyIsOneBlock(r, merged, Message);
    ReplyIsOneBlock(r, apart, Message);
    assert Turns(Read(r, merged))[|r.turns|].timestamp == 6;
    assert Turns(Read(r, apart))[|r.turns|].timestamp == 5;
  }

  const TURN_END_TORN := Abandoned([ENDED], true, 2, true)
  const STREAM_LANDED := Landed([Queued(2, EntryRecord(FIRST)), Queued(3, EntryRecord(NEXT))], true)

  lemma LaggingLog()
    ensures Run(NewWriter([]), LaggingRun()).log == [Landed([ASKED], false)] + [TURN_END_TORN] + [STREAM_LANDED]
  {
    var q0, q1 := Queued(2, EntryRecord(FIRST)), Queued(3, EntryRecord(NEXT));
    var a, b, c, d := Offer(ASKED, 0, true, Lands), Offer(ENDED, 1, true, Torn(2, true)),
                      Offer(q0, 5, true, Lands), Offer(q1, 6, true, Lands);
    var e := Tick(5 + FLUSH_WINDOW_MS, Lands);
    RunSnoc(NewWriter([]), [], a);
    assert [] + [a] == [a];
    RunSnoc(NewWriter([]), [a], b);
    RunSnoc(NewWriter([]), [a] + [b], c);
    RunSnoc(NewWriter([]), [a] + [b] + [c], d);
    RunSnoc(NewWriter([]), [a] + [b] + [c] + [d], e);
    var w1 := Do(NewWriter([]), a);
    PromptLands();
    TurnEndIsTorn(w1);
    StreamIsMerged(Do(w1, b));
  }

  lemma GatherThree(x: Event, y: Event, z: Event, part: Event -> seq<Record>)
    ensures Gather([x] + [y] + [z], part) == part(x) + part(y) + part(z)
  {
    GatherSnoc([x] + [y], z, part);
    GatherSnoc([x], y, part);
    GatherSnoc([], x, part);
    assert [] + [x] == [x] && [] + part(x) == part(x);
  }

  lemma EndLeavesNoTurn(r: Reader, es: seq<Entry>, end: Entry)
    requires end.TurnEnd?
    ensures var f := Read(r, es + [end]); f.pending.None? && f.startHint.None? && !f.proseOpen
  {
    ReadAppend(r, es, [end]);
    assert [end][1..] == [];
  }

  lemma ReadsDiffer(prompt: Entry, end: Entry)
    requires end.TurnEnd?
    ensures Project([prompt] + [end] + [Fold(FIRST, NEXT)]) != Project([prompt] + [end] + [FIRST, NEXT])
  {
    EndLeavesNoTurn(START, [prompt], end);
    ReadAppend(START, [prompt] + [end], [Fold(FIRST, NEXT)]);
    ReadAppend(START, [prompt] + [end], [FIRST, NEXT]);
    StartsDiffer(Read(START, [prompt] + [end]));
  }

  lemma EntriesOfTwo(x: Entry, y: Entry)
    ensures EntriesOf([EntryRecord(x)]) == [x]
    ensures EntriesOf([EntryRecord(x), EntryRecord(y)]) == [x, y]
  {
    assert [EntryRecord(x), EntryRecord(y)][1..] == [EntryRecord(y)] && [EntryRecord(y)][1..] == [];
    assert [EntryRecord(x)][1..] == [];
  }

  lemma LaggingGathered()
    ensures var log := Run(NewWriter([]), LaggingRun()).log;
            && Gather(log, EventRecords) == [ASKED.record] + [ENDED.record] + [EntryRecord(Fold(FIRST, NEXT))]
            && Gather(log, EventVerbatim) == [ASKED.record] + [ENDED.record] + [EntryRecord(FIRST), EntryRecord(NEXT)]
  {
    LaggingLog();
    var w1 := Do(NewWriter([]), Offer(ASKED, 0, true, Lands));
    PromptLands();
    TurnEndIsTorn(w1);
    StreamIsMerged(Do(w1, Offer(ENDED, 1, true, Torn(2, true))));
    GatherThree(Landed([ASKED], false), TURN_END_TORN, STREAM_LANDED, EventRecords);
    GatherThree(Landed([ASKED], false), TURN_END_TORN, STREAM_LANDED, EventVerbatim);
    assert RecordsOf([ASKED]) == [ASKED.record];
  }

  lemma EntriesOfThree(x: Record, y: Record, zs: seq<Record>)
    requires x.EntryRecord? && y.EntryRecord?
    ensures EntriesOf([x] + [y] + zs) == [x.entry] + [y.entry] + EntriesOf(zs)
  {
    EntriesOfAppend([x] + [y], zs);
    EntriesOfAppend([x], [y]);
    assert [x][1..] == [] && [y][1..] == [];
  }

  /** Without that condition meaning is lost: a run after which the file, its torn turn end
      read back whole, projects to other turns than the records it holds written verbatim. */
  lemma LaggingWriterLosesMeaning()
    ensures var w := Run(NewWriter([]), LaggingRun());
            Project(EntriesOf(Parse(w.file))) != Project(EntriesOf(Gather(w.log, EventVerbatim)))
  {
    FileHoldsWhatLanded([], LaggingRun());
    ParseNothing();
    LaggingGathered();
    var log := Run(NewWriter([]), LaggingRun()).log;
    assert [] + Gather(log, EventRecords) == Gather(log, EventRecords);
    EntriesOfTwo(FIRST, NEXT);
    EntriesOfTwo(Fold(FIRST, NEXT), NEXT);
    EntriesOfThree(ASKED.record, ENDED.record, [EntryRecord(Fold(FIRST, NEXT))]);
    EntriesOfThree(ASKED.record, ENDED.record, [EntryRecord(FIRST), EntryRecord(NEXT)]);
    ReadsDiffer(ASKED.record.entry, ENDED.record.entry);
  }
}
