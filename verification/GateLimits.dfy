/** How far the replay gate can be trusted, exactly: over which files, and over which reads. */
module GateLimits {
  import opened Records
  import opened TranscriptFile
  import Compaction
  import opened WriterModel
  import opened WriterTheorems
  import opened ReplayGate

  function FileOf(files: map<Path, seq<Cell>>, p: Path): seq<Cell> {
    if p in files then files[p] else []
  }

  /** The dangerous mistake: "no history", with a prompt that was queued before the gate
      started and was not discarded. */
  ghost predicate FalseNo(s: System, p: Path) {
    && s.gate.Answered? && s.gate.path == p && !s.gate.yes
    && !(s.gate.earlier <= Prompts(s.discarded, p))
  }

  // ---- A conversation with history is never denied it --------------------------

  lemma NextKeepsFile(s: System, m: Move, p: Path)
    ensures WriterOf(s, p).file <= WriterOf(Next(s, m), p).file
  {
    match m
    case Serve(now, sees, io) =>
      if s.queue != [] {
        var q := s.queue[0].q;
        DoKeepsFile(WriterOf(s, s.queue[0].path), Offer(q, now, sees, io));
      }
    case Due(path, now, io) => DoKeepsFile(WriterOf(s, path), Tick(now, io));
    case _ =>
  }

  /** An answer given with an entry on a closed line, from a read that got through, is yes. */
  ghost predicate NeverDenied(s: System, p: Path, file: seq<Cell>) {
    && file <= WriterOf(s, p).file
    && (s.gate.Answered? && s.gate.path == p && s.gate.whole ==> s.gate.yes)
  }

  lemma NextNeverDenies(s: System, m: Move, p: Path, file: seq<Cell>)
    requires HasEntries(ClosedPart(file)) && NeverDenied(s, p, file)
    ensures NeverDenied(Next(s, m), p, file)
  {
    NextKeepsFile(s, m, p);
    if m.GateFile? {
      ClosedEntryShows(file, WriterOf(s, p).file);
    } else if !m.GateCount? {
      OnlyTheGateMovesIt(s, m);
    }
  }

  lemma {:induction false} StepsNeverDeny(s: System, moves: seq<Move>, p: Path, file: seq<Cell>)
    requires HasEntries(ClosedPart(file)) && NeverDenied(s, p, file)
    ensures NeverDenied(Steps(s, moves), p, file)
    decreases |moves|
  {
    if moves != [] {
      NextNeverDenies(s, moves[0], p, file);
      StepsNeverDeny(Next(s, moves[0]), moves[1..], p, file);
    }
  }

  /** Over a file that holds an entry on a closed line, its last line torn or not, no run
      (evictions and poisoned writers included) gets a "no" from a read that gets through. */
  lemma HistoryIsNeverDenied(files: map<Path, seq<Cell>>, moves: seq<Move>, p: Path)
    requires HasEntries(ClosedPart(FileOf(files, p)))
    ensures var s := Steps(Boot(files), moves);
            s.gate.Answered? && s.gate.path == p && s.gate.whole ==> s.gate.yes
  {
    StepsNeverDeny(Boot(files), moves, p, FileOf(files, p));
  }

  // ---- One prompt, from the caller to the gate ---------------------------------

  lemma FirstPromptLands(file: seq<Cell>, q: Queued)
    requires IsPrompt(q)
    ensures var f := Accept(NewWriter(file), q, 0, true, Lands);
            && f.pending == [] && f.log == [Landed([q], false)] && f.answers == [Answer(q.ticket, true)]
            && f.file == file + Print([q.record])
  {
    var b := Buffer(NewWriter(file), q, 0);
    assert b.pending == [q] && RecordsOf([q]) == [q.record];
    Compaction.CompactOne(q.record);
    assert Print([q.record])[0] == Line(q.record)[0];
    assert AnswersFor([q], true) == [Answer(q.ticket, true)];
    assert Flush(b, 0, Lands).log == [Landed([q], false)];
  }

  /** The caller queues the prompt, the writer lands it and lets its guard go, and only then
      does the gate look. */
  function PromptRun(p: Path, q: Queued, scan: Scan): seq<Move> {
    [Take(Job(p, q)), Send(0, true), Serve(0, true, Lands)] + [Drop(0), GateCount(p), GateFile(scan)]
  }

  /** Nothing in flight, no prompt of the path on the books, and a fresh writer for it. */
  ghost predicate Quiet(s: System, p: Path, file: seq<Cell>) {
    && s.counts == map[] && s.sending == [] && s.queue == [] && s.releasing == []
    && WriterOf(s, p) == NewWriter(file)
    && Prompts(s.taken, p) == multiset{} && Prompts(s.discarded, p) == multiset{}
  }

  lemma BootIsQuiet(files: map<Path, seq<Cell>>, p: Path)
    ensures Quiet(Boot(files), p, FileOf(files, p))
  {
  }

  /** Handed in and in the channel. */
  function Sent(s: System, job: Job): System {
    SendStep(TakeStep(s, job), 0, true)
  }

  lemma PromptSent(s: System, p: Path, file: seq<Cell>, q: Queued)
    requires IsPrompt(q) && Quiet(s, p, file)
    ensures var t := Sent(s, Job(p, q));
            && t.queue == [Job(p, q)] && Prompts(t.taken, p) == multiset{q} && t.writers == s.writers
            && t.counts == map[p := 1] && t.releasing == [] && t.landed == s.landed && t.discarded == s.discarded
  {
    PromptsSnoc(s.taken, Job(p, q), p);
  }

  lemma PromptServed(s: System, p: Path, file: seq<Cell>, q: Queued)
    requires IsPrompt(q) && s.queue == [Job(p, q)] && WriterOf(s, p) == NewWriter(file) && s.releasing == []
    ensures var t := ServeStep(s, 0, true, Lands);
            && t.releasing == [Job(p, q)] && t.landed == s.landed + [Job(p, q)] && t.discarded == s.discarded
            && t.counts == s.counts && t.taken == s.taken && t.gate == s.gate
            && WriterOf(t, p).file == file + Print([q.record])
            && WriterOf(t, p).answers == [Answer(q.ticket, true)]
  {
    FirstPromptLands(file, q);
    var f := Accept(NewWriter(file), q, 0, true, Lands);
    assert Decided(NewWriter(file), f) == [Landed([q], false)];
    assert On(p, [q]) == [Job(p, q)] && On(p, []) == [];
  }

  lemma GateAfterDrop(s: System, p: Path, q: Queued, scan: Scan)
    requires IsPrompt(q) && s.releasing == [Job(p, q)] && s.counts == map[p := 1] && Prompts(s.taken, p) == multiset{q}
    ensures var t := GateCountStep(DropStep(s, 0), p);
            && t.gate.PastCount? && t.landed == s.landed && t.discarded == s.discarded && t.writers == s.writers
            && var g := GateFileStep(t, scan).gate;
               g.path == p && g.earlier == multiset{q} && g.yes == SeesEntries(WriterOf(s, p).file, scan)
  {
    assert DropStep(s, 0).counts == map[];
  }

  lemma {:induction false} StepsAppend(s: System, a: seq<Move>, b: seq<Move>)
    ensures Steps(s, a + b) == Steps(Steps(s, a), b)
    decreases |a|
  {
    if a == [] {
      assert a + b == b;
    } else {
      assert (a + b)[0] == a[0] && (a + b)[1..] == a[1..] + b;
      StepsAppend(Next(s, a[0]), a[1..], b);
    }
  }

  lemma StepsOne(s: System, m: Move)
    ensures Steps(s, [m]) == Next(s, m)
  {
    assert [m][1..] == [];
  }

  lemma StepsTwo(s: System, a: Move, b: Move)
    ensures Steps(s, [a, b]) == Next(Next(s, a), b)
  {
    assert [a, b] == [a] + [b];
    StepsAppend(s, [a], [b]);
    StepsOne(s, a);
    StepsOne(Next(s, a), b);
  }

  lemma StepsThree(s: System, a: Move, b: Move, c: Move)
    ensures Steps(s, [a, b, c]) == Next(Next(Next(s, a), b), c)
  {
    assert [a, b, c] == [a, b] + [c];
    StepsAppend(s, [a, b], [c]);
    StepsTwo(s, a, b);
    StepsOne(Next(Next(s, a), b), c);
  }

  /** From a quiet state, three moves hand a record in and have the writer serve it. */
  lemma FirstThree(s: System, p: Path, file: seq<Cell>, job: Job, io: Io)
    requires Quiet(s, p, file)
    ensures Steps(s, [Take(job), Send(0, true), Serve(0, true, io)]) == ServeStep(Sent(s, job), 0, true, io)
  {
    StepsThree(s, Take(job), Send(0, true), Serve(0, true, io));
    assert ([] + [job])[0] == job;
  }

  lemma LastThree(s: System, p: Path, q: Queued, a: Move, b: Move, c: Move)
    requires IsPrompt(q) && s.releasing == [Job(p, q)] && s.counts == map[p := 1] && Prompts(s.taken, p) == multiset{q}
    requires a == Drop(0) && b == GateCount(p) && c.GateFile?
    ensures Steps(s, [a, b, c]) == GateFileStep(GateCountStep(DropStep(s, 0), p), c.scan)
  {
    StepsThree(s, a, b, c);
    GateAfterDrop(s, p, q, c.scan);
  }

  /** That run, from any quiet state: the prompt lands, its caller is told so, and the gate
      answers what its read of the file with the prompt appended sees. */
  lemma PromptRunEnds(s: System, p: Path, file: seq<Cell>, q: Queued, scan: Scan)
    requires IsPrompt(q) && Quiet(s, p, file)
    ensures var t := Steps(s, PromptRun(p, q, scan));
            && t.gate.Answered? && t.gate.path == p && t.gate.earlier == multiset{q}
            && t.gate.yes == SeesEntries(file + Print([q.record]), scan)
            && t.landed == s.landed + [Job(p, q)] && Prompts(t.discarded, p) == multiset{}
            && Answer(q.ticket, true) in WriterOf(t, p).answers
  {
    var sent := Sent(s, Job(p, q));
    var served := ServeStep(sent, 0, true, Lands);
    PromptSent(s, p, file, q);
    PromptServed(sent, p, file, q);
    GateAfterDrop(served, p, q, scan);
    FirstThree(s, p, file, Job(p, q), Lands);
    LastThree(served, p, q, Drop(0), GateCount(p), GateFile(scan));
    StepsAppend(s, [Take(Job(p, q)), Send(0, true), Serve(0, true, Lands)], [Drop(0), GateCount(p), GateFile(scan)]);
  }

  /** A prompt that lands is there to be read unless the file hides it, exactly. */
  lemma LandedPromptShowsIff(file: seq<Cell>, q: Queued)
    requires IsPrompt(q)
    ensures HasEntries(file + Print([q.record])) <==> !Hides(file)
  {
    var r := q.record;
    assert [r][1..] == [];
    if AtBoundary(file) {
      ParseAppend(file, Print([r]));
      ParsePrint([r]);
      EntriesOfAppend(Parse(file), [r]);
    } else {
      var head := ClosedPart(file);
      assert file == head + file[|head|..];
      TornTailSwallows(head, file[|head|..], [r]);
      assert Parse(head) + [] == Parse(head);
    }
  }

  /** The run that goes wrong: over every file that hides what it appends, with or without
      closed lines before the torn one, a prompt lands, is acked, and the gate says no. */
  lemma HiddenPromptIsDenied(s: System, p: Path, file: seq<Cell>, q: Queued)
    requires IsPrompt(q) && Quiet(s, p, file) && Hides(file)
    ensures var t := Steps(s, PromptRun(p, q, Whole));
            FalseNo(t, p) && Job(p, q) in t.landed && Answer(q.ticket, true) in WriterOf(t, p).answers
  {
    LandedPromptShowsIff(file, q);
    PromptRunEnds(s, p, file, q, Whole);
  }

  /** The same over every file whatsoever, if the gate's read cannot open it. */
  lemma UnreadFileIsDenied(files: map<Path, seq<Cell>>, p: Path, q: Queued)
    requires IsPrompt(q)
    ensures var t := Steps(Boot(files), PromptRun(p, q, Stops(0)));
            FalseNo(t, p) && t.landed == [Job(p, q)] && Answer(q.ticket, true) in WriterOf(t, p).answers
  {
    var file := FileOf(files, p);
    BootIsQuiet(files, p);
    PromptRunEnds(Boot(files), p, file, q, Stops(0));
    assert (file + Print([q.record]))[..0] == [];
    ParseNothing();
  }

  const ASKED := Queued(0, EntryRecord(Prompt(0, [], false)))

  // ---- The exact condition -----------------------------------------------------

  /** The path keeps its writer, and reads get through. */
  predicate Undisturbed(moves: seq<Move>, p: Path) {
    forall i :: 0 <= i < |moves| ==> moves[i] != Evict(p) && (moves[i].GateFile? ==> moves[i].scan.Whole?)
  }

  ghost predicate NotHidden(s: System, p: Path) {
    p !in s.hiding && (s.gate.Answered? && s.gate.path == p ==> !s.gate.hidden && s.gate.whole)
  }

  lemma NextNotHidden(s: System, m: Move, p: Path)
    requires NotHidden(s, p) && m != Evict(p) && (m.GateFile? ==> m.scan.Whole?)
    ensures NotHidden(Next(s, m), p)
  {
    if !m.GateCount? && !m.GateFile? { OnlyTheGateMovesIt(s, m); }
  }

  lemma {:induction false} StepsNotHidden(s: System, moves: seq<Move>, p: Path)
    requires NotHidden(s, p) && Undisturbed(moves, p)
    ensures NotHidden(Steps(s, moves), p)
    decreases |moves|
  {
    if moves != [] {
      assert moves[0] == moves[0] && Undisturbed(moves[1..], p);
      NextNotHidden(s, moves[0], p);
      StepsNotHidden(Next(s, moves[0]), moves[1..], p);
    }
  }

  lemma UndisturbedRunIsSound(files: map<Path, seq<Cell>>, p: Path, moves: seq<Move>)
    requires !Hides(FileOf(files, p)) && Undisturbed(moves, p)
    ensures !FalseNo(Steps(Boot(files), moves), p)
  {
    StepsNotHidden(Boot(files), moves, p);
    NoFalseNo(files, moves);
  }

  /** With no eviction of the path and reads that get through, no run over the files gives a
      false no if and only if the file ends on a line boundary or some line it closed already
      holds an entry. */
  lemma GateIsSoundIff(files: map<Path, seq<Cell>>, p: Path)
    ensures (forall moves | Undisturbed(moves, p) :: !FalseNo(Steps(Boot(files), moves), p))
       <==> AtBoundary(FileOf(files, p)) || HasEntries(ClosedPart(FileOf(files, p)))
  {
    if Hides(FileOf(files, p)) {
      BootIsQuiet(files, p);
      HiddenPromptIsDenied(Boot(files), p, FileOf(files, p), ASKED);
      RunsAreUndisturbed(p);
    } else {
      forall moves | Undisturbed(moves, p) ensures !FalseNo(Steps(Boot(files), moves), p) {
        UndisturbedRunIsSound(files, p, moves);
      }
    }
  }

  // ---- With evictions ----------------------------------------------------------

  const FIRST := Queued(0, EntryRecord(TurnEnd(0, None, None, None)))

  predicate ReadsThrough(moves: seq<Move>) {
    forall i :: 0 <= i < |moves| ==> moves[i].GateFile? ==> moves[i].scan.Whole?
  }

  /** A record torn after its first character, its newline refused, its writer evicted. */
  function TornRun(p: Path): seq<Move> {
    [Take(Job(p, FIRST)), Send(0, true), Serve(0, true, Torn(1, false))] + [Drop(0), Evict(p)]
  }

  lemma FirstIsTorn(file: seq<Cell>)
    ensures var f := Accept(NewWriter(file), FIRST, 0, true, Torn(1, false));
            && f.pending == [] && f.log == [Abandoned([FIRST], false, 1, false)]
            && f.file == file + [At(FIRST.record, 0)]
  {
    var b, r := Buffer(NewWriter(file), FIRST, 0), FIRST.record;
    assert b.pending == [FIRST] && RecordsOf([FIRST]) == [r];
    Compaction.CompactOne(r);
    var lines := Print([r]);
    assert |lines| > 1 && lines[0] == Line(r)[0] == At(r, 0);
    assert lines[..1] == [At(r, 0)];
    FlushShape(b, 0, Torn(1, false));
    assert [At(r, 0)] + [] == [At(r, 0)];
  }

  lemma TornIsServed(s: System, p: Path, file: seq<Cell>)
    requires s.queue == [Job(p, FIRST)] && WriterOf(s, p) == NewWriter(file) && s.releasing == []
    ensures var t := ServeStep(s, 0, true, Torn(1, false));
            && t.releasing == [Job(p, FIRST)] && t.discarded == s.discarded + [Job(p, FIRST)]
            && t.counts == s.counts && t.taken == s.taken && t.sending == s.sending && t.queue == []
            && WriterOf(t, p).file == file + [At(FIRST.record, 0)] && WriterOf(t, p).pending == []
  {
    FirstIsTorn(file);
    var f := Accept(NewWriter(file), FIRST, 0, true, Torn(1, false));
    assert Decided(NewWriter(file), f) == [Abandoned([FIRST], false, 1, false)];
    assert On(p, [FIRST]) == [Job(p, FIRST)] && On(p, []) == [];
  }

  lemma TornIsSent(s: System, p: Path, file: seq<Cell>)
    requires Quiet(s, p, file)
    ensures var t := Sent(s, Job(p, FIRST));
            && t.queue == [Job(p, FIRST)] && t.sending == [] && t.releasing == [] && t.counts == map[]
            && t.writers == s.writers && t.discarded == s.discarded && Prompts(t.taken, p) == multiset{}
  {
    PromptsSnoc(s.taken, Job(p, FIRST), p);
  }

  lemma TornIsForgotten(s: System, p: Path, file: seq<Cell>)
    requires s.releasing == [Job(p, FIRST)] && s.queue == [] && s.sending == [] && s.counts == map[]
    requires WriterOf(s, p).file == file && WriterOf(s, p).pending == []
    requires Prompts(s.taken, p) == multiset{} && Prompts(s.discarded, p) == multiset{}
    ensures Quiet(Steps(s, [Drop(0), Evict(p)]), p, file)
  {
    StepsTwo(s, Drop(0), Evict(p));
    var d := DropStep(s, 0);
    assert d.writers == s.writers && d.counts == map[] && d.releasing == [];
    assert Next(s, Drop(0)) == d && Next(d, Evict(p)) == EvictStep(d, p);
  }

  lemma TornRunIsQuiet(s: System, p: Path, file: seq<Cell>)
    requires Quiet(s, p, file)
    ensures Quiet(Steps(s, TornRun(p)), p, file + [At(FIRST.record, 0)])
  {
    var job := Job(p, FIRST);
    var sent := Sent(s, job);
    var served := ServeStep(sent, 0, true, Torn(1, false));
    TornIsSent(s, p, file);
    TornIsServed(sent, p, file);
    PromptsSnoc(s.discarded, job, p);
    TornIsForgotten(served, p, file + [At(FIRST.record, 0)]);
    FirstThree(s, p, file, job, Torn(1, false));
    StepsAppend(s, [Take(job), Send(0, true), Serve(0, true, Torn(1, false))], [Drop(0), Evict(p)]);
  }

  lemma TornHides(file: seq<Cell>)
    requires AtBoundary(file) && !HasEntries(file)
    ensures Hides(file + [At(FIRST.record, 0)])
  {
    var torn := file + [At(FIRST.record, 0)];
    assert torn[|file|] == At(FIRST.record, 0);
    assert torn[..|torn| - 1] == file;
  }

  /** With evictions allowed, no run gives a false no if and only if some line the file had
      closed already holds an entry: over any other file a writer can tear its first record,
      be evicted poisoned, and leave its successor a file that hides the next prompt. */
  lemma EvictedGateIsSoundIff(files: map<Path, seq<Cell>>, p: Path)
    ensures (forall moves | ReadsThrough(moves) :: !FalseNo(Steps(Boot(files), moves), p))
       <==> HasEntries(ClosedPart(FileOf(files, p)))
  {
    var file := FileOf(files, p);
    if HasEntries(ClosedPart(file)) {
      forall moves | ReadsThrough(moves) ensures !FalseNo(Steps(Boot(files), moves), p) {
        WholeReadsStay(Boot(files), moves);
        HistoryIsNeverDenied(files, moves, p);
      }
    } else {
      var moves := HidingRun(files, p);
    }
  }

  lemma TornThenHidden(files: map<Path, seq<Cell>>, p: Path)
    requires AtBoundary(FileOf(files, p)) && !HasEntries(FileOf(files, p))
    ensures FalseNo(Steps(Boot(files), TornRun(p) + PromptRun(p, ASKED, Whole)), p)
  {
    var file := FileOf(files, p);
    BootIsQuiet(files, p);
    TornRunIsQuiet(Boot(files), p, file);
    TornHides(file);
    HiddenPromptIsDenied(Steps(Boot(files), TornRun(p)), p, file + [At(FIRST.record, 0)], ASKED);
    StepsAppend(Boot(files), TornRun(p), PromptRun(p, ASKED, Whole));
  }

  lemma RunsAreUndisturbed(p: Path)
    ensures Undisturbed(PromptRun(p, ASKED, Whole), p) && ReadsThrough(PromptRun(p, ASKED, Whole))
    ensures ReadsThrough(TornRun(p) + PromptRun(p, ASKED, Whole))
  {
  }

  lemma HidingRun(files: map<Path, seq<Cell>>, p: Path) returns (moves: seq<Move>)
    requires !HasEntries(ClosedPart(FileOf(files, p)))
    ensures ReadsThrough(moves) && FalseNo(Steps(Boot(files), moves), p)
  {
    RunsAreUndisturbed(p);
    if AtBoundary(FileOf(files, p)) {
      TornThenHidden(files, p);
      moves := TornRun(p) + PromptRun(p, ASKED, Whole);
    } else {
      BootIsQuiet(files, p);
      HiddenPromptIsDenied(Boot(files), p, FileOf(files, p), ASKED);
      moves := PromptRun(p, ASKED, Whole);
    }
  }

  lemma {:induction false} WholeReadsStay(s: System, moves: seq<Move>)
    requires ReadsThrough(moves) && (s.gate.Answered? ==> s.gate.whole)
    ensures Steps(s, moves).gate.Answered? ==> Steps(s, moves).gate.whole
    decreases |moves|
  {
    if moves != [] {
      if !moves[0].GateCount? && !moves[0].GateFile? { OnlyTheGateMovesIt(s, moves[0]); }
      assert ReadsThrough(moves[1..]);
      WholeReadsStay(Next(s, moves[0]), moves[1..]);
    }
  }

  // ---- What the gate answers, exactly ----------------------------------------------

  lemma {:induction false} GateWaits(s: System, moves: seq<Move>)
    requires forall i :: 0 <= i < |moves| ==> !moves[i].GateCount? && !moves[i].GateFile?
    ensures Steps(s, moves).gate == s.gate
    decreases |moves|
  {
    if moves != [] {
      OnlyTheGateMovesIt(s, moves[0]);
      GateWaits(Next(s, moves[0]), moves[1..]);
    }
  }

  lemma GateAnswers(s: System, p: Path, u: System)
    requires u.gate == Next(s, GateCount(p)).gate
    ensures var gate := Next(u, GateFile(Whole)).gate;
            gate.Answered? && gate.path == p && (gate.yes <==> p in s.counts || HasEntries(WriterOf(u, p).file))
  {
  }

  /** A path is counted exactly while some prompt of it is queued or not yet let go of. */
  lemma CountedIffLive(files: map<Path, seq<Cell>>, moves: seq<Move>, p: Path)
    ensures var s := Steps(Boot(files), moves);
            p in s.counts <==> InFlight(s, p) != multiset{} || Prompts(s.releasing, p) != multiset{}
  {
    CountsAreLiveGuards(files, moves, p);
  }

  /** The gate's answer, with anything at all between its two reads: yes exactly when the first
      found a prompt of the path queued or not yet let go of, or the second, if it got through
      the file, an entry in it. So a conversation with neither is answered no. */
  lemma GateAnswersIff(files: map<Path, seq<Cell>>, before: seq<Move>, p: Path, between: seq<Move>)
    requires forall i :: 0 <= i < |between| ==> !between[i].GateCount? && !between[i].GateFile?
    ensures var s := Steps(Boot(files), before);
            var u := Steps(Next(s, GateCount(p)), between);
            var gate := Next(u, GateFile(Whole)).gate;
            && gate.Answered? && gate.path == p
            && (gate.yes <==> InFlight(s, p) != multiset{} || Prompts(s.releasing, p) != multiset{}
                              || EntriesOf(Parse(WriterOf(u, p).file)) != [])
  {
    var s := Steps(Boot(files), before);
    CountedIffLive(files, before, p);
    GateWaits(Next(s, GateCount(p)), between);
    GateAnswers(s, p, Steps(Next(s, GateCount(p)), between));
  }
}
