/** The replay gate against the writer: enqueuing threads, the writer thread and the gate's
    two separate reads, interleaved step by step over every session's file. */
module ReplayGate {
  import opened Records
  import opened TranscriptFile
  import Compaction
  import opened WriterModel
  import opened WriterTheorems
  import Projection

  type Path = string

  datatype Job = Job(path: Path, q: Queued)

  /** The gate: asleep, past its first read with nothing pending there, or answered.
      `earlier` is every prompt queued for the path before the gate started, `hidden`
      whether some writer had found the file in a state that hides what it appends, and
      `whole` whether the read, if there was one, got through the file. */
  datatype Gate =
    | Asleep
    | PastCount(path: Path, earlier: multiset<Queued>)
    | Answered(path: Path, earlier: multiset<Queued>, yes: bool, hidden: bool, whole: bool)

  datatype System = System(
    counts: map<Path, nat>,      // pending prompts per path, shared under a lock
    sending: seq<Job>,           // guard taken, not yet handed to the queue
    queue: seq<Job>,             // the channel, oldest first
    writers: map<Path, Writer>,  // each session's writer and its file
    bases: map<Path, seq<Cell>>, // each file as its present writer found it
    hiding: set<Path>,           // files some writer found hiding what it appends
    releasing: seq<Job>,         // settled, guard not yet dropped
    gate: Gate,
    taken: seq<Job>,             // every record ever given to `enqueue`
    landed: seq<Job>,
    discarded: seq<Job>)

  predicate IsPrompt(q: Queued) {
    q.record.EntryRecord? && q.record.entry.Prompt?
  }

  function IfPrompt(q: Queued): multiset<Queued> {
    if IsPrompt(q) then multiset{q} else multiset{}
  }

  function PromptsIn(qs: seq<Queued>): (prompts: multiset<Queued>)
  {
    if qs == [] then multiset{} else IfPrompt(qs[0]) + PromptsIn(qs[1..])
  }

  /** The queued records of one path. */
  function At(jobs: seq<Job>, p: Path): (qs: seq<Queued>)
  {
    if jobs == [] then [] else (if jobs[0].path == p then [jobs[0].q] else []) + At(jobs[1..], p)
  }

  function Prompts(jobs: seq<Job>, p: Path): multiset<Queued> { PromptsIn(At(jobs, p)) }

  function On(p: Path, qs: seq<Queued>): (jobs: seq<Job>)
    ensures |jobs| == |qs|
  {
    seq(|qs|, i requires 0 <= i < |qs| => Job(p, qs[i]))
  }

  function WriterOf(s: System, p: Path): Writer {
    if p in s.writers then s.writers[p] else NewWriter([])
  }

  function BaseOf(s: System, p: Path): seq<Cell> {
    if p in s.bases then s.bases[p] else []
  }

  function CountOf(counts: map<Path, nat>, p: Path): nat {
    if p in counts then counts[p] else 0
  }

  predicate HasEntries(file: seq<Cell>) { EntriesOf(Parse(file)) != [] }

  /** A file that swallows the next record and has no entry to show without it: it ends
      mid-line, and no line it closed is an entry. */
  predicate Hides(file: seq<Cell>) {
    !AtBoundary(file) && !HasEntries(ClosedPart(file))
  }

  /** How far a scan of the file gets: through it, or to a read error after some cells, the
      first of which can be the opening of the file. */
  datatype Scan = Whole | Stops(after: nat)

  /** `has_entries_in`: only lines read to their newline, or to the end, are looked at. */
  predicate SeesEntries(file: seq<Cell>, scan: Scan) {
    match scan
    case Whole => HasEntries(file)
    case Stops(n) => HasEntries(ClosedPart(file[..if n <= |file| then n else |file|]))
  }

  // ---- The steps ----------------------------------------------------------

  datatype Move =
    | Take(job: Job)                        // a caller enters `enqueue`
    | Send(i: nat, fits: bool)              // `try_send`
    | Serve(now: nat, sees: bool, io: Io)               // the writer thread takes one job
    | Due(path: Path, now: nat, io: Io)     // a flush window comes due
    | Evict(path: Path)                     // an idle writer is forgotten
    | Drop(i: nat)                          // one settled record's guard is dropped
    | GateCount(path: Path)                 // the gate's first read
    | GateFile(scan: Scan)                  // its second

  function Raise(counts: map<Path, nat>, p: Path): map<Path, nat> {
    counts[p := CountOf(counts, p) + 1]
  }

  function Lower(counts: map<Path, nat>, p: Path): map<Path, nat> {
    if p !in counts then counts
    else if counts[p] <= 1 then counts - {p}
    else counts[p := counts[p] - 1]
  }

  function Without<T>(xs: seq<T>, i: nat): seq<T>
    requires i < |xs|
  {
    xs[..i] + xs[i + 1..]
  }

  /** The event a writer step decided, if it decided one. */
  function Decided(w: Writer, f: Writer): seq<Event> {
    if |w.log| < |f.log| then [f.log[|f.log| - 1]] else []
  }

  function LandedBy(es: seq<Event>): seq<Queued> {
    if es != [] && es[0].Landed? then es[0].batch else []
  }

  function DiscardedBy(es: seq<Event>): seq<Queued> {
    if es == [] then []
    else match es[0]
         case Landed(_, _) => []
         case Abandoned(batch, _, _, _) => batch
         case Refused(q) => [q]
         case Repeated(q) => [q]
  }

  /** The writer for `p` becomes `f`; what that settled awaits the drop of its guards. */
  function Settle(s: System, p: Path, f: Writer): System {
    var es := Decided(WriterOf(s, p), f);
    var landed, lost := On(p, LandedBy(es)), On(p, DiscardedBy(es));
    s.(writers := s.writers[p := f],
       releasing := s.releasing + landed + lost,
       landed := s.landed + landed,
       discarded := s.discarded + lost)
  }

  function TakeStep(s: System, job: Job): System {
    s.(counts := if IsPrompt(job.q) then Raise(s.counts, job.path) else s.counts,
       sending := s.sending + [job],
       taken := s.taken + [job])
  }

  function SendStep(s: System, i: nat, fits: bool): System
    requires i < |s.sending|
  {
    var job, rest := s.sending[i], Without(s.sending, i);
    if fits then s.(sending := rest, queue := s.queue + [job])
    else s.(sending := rest, releasing := s.releasing + [job], discarded := s.discarded + [job])
  }

  function ServeStep(s: System, now: nat, sees: bool, io: Io): System
    requires s.queue != []
  {
    var job := s.queue[0];
    Settle(s.(queue := s.queue[1..]), job.path, Accept(WriterOf(s, job.path), job.q, now, sees, io))
  }

  function DueStep(s: System, p: Path, now: nat, io: Io): System {
    Settle(s, p, Do(WriterOf(s, p), Tick(now, io)))
  }

  function EvictStep(s: System, p: Path): System {
    var file := WriterOf(s, p).file;
    s.(writers := s.writers[p := NewWriter(file)],
       bases := s.bases[p := file],
       hiding := if Hides(file) then s.hiding + {p} else s.hiding)
  }

  function DropStep(s: System, i: nat): System
    requires i < |s.releasing|
  {
    var job := s.releasing[i];
    s.(releasing := Without(s.releasing, i),
       counts := if IsPrompt(job.q) then Lower(s.counts, job.path) else s.counts)
  }

  function GateCountStep(s: System, p: Path): System {
    var earlier := Prompts(s.taken, p);
    s.(gate := if p in s.counts then Answered(p, earlier, true, p in s.hiding, true) else PastCount(p, earlier))
  }

  function GateFileStep(s: System, scan: Scan): System
    requires s.gate.PastCount?
  {
    var p := s.gate.path;
    s.(gate := Answered(p, s.gate.earlier, SeesEntries(WriterOf(s, p).file, scan), p in s.hiding, scan.Whole?))
  }

  /** A move that cannot be made now changes nothing. */
  function Next(s: System, m: Move): System {
    match m
    case Take(job) => TakeStep(s, job)
    case Send(i, fits) => if i < |s.sending| then SendStep(s, i, fits) else s
    case Serve(now, sees, io) => if s.queue != [] then ServeStep(s, now, sees, io) else s
    case Due(p, now, io) => DueStep(s, p, now, io)
    case Evict(p) => if WriterOf(s, p).pending == [] then EvictStep(s, p) else s
    case Drop(i) => if i < |s.releasing| then DropStep(s, i) else s
    case GateCount(p) => GateCountStep(s, p)
    case GateFile(scan) => if s.gate.PastCount? then GateFileStep(s, scan) else s
  }

  function Steps(s: System, moves: seq<Move>): System
    decreases |moves|
  {
    if moves == [] then s else Steps(Next(s, moves[0]), moves[1..])
  }

  /** A process starting over the files a previous one left. */
  function Boot(files: map<Path, seq<Cell>>): System {
    System(map[], [], [], map p <- files :: NewWriter(files[p]), files,
           set p <- files | Hides(files[p]), [], Asleep, [], [], [])
  }

  // ---- Invariants -----------------------------------------------------------

  function InFlight(s: System, p: Path): multiset<Queued> {
    Prompts(s.sending, p) + Prompts(s.queue, p) + PromptsIn(WriterOf(s, p).pending)
  }

  /** The shared count is the number of live guards: in flight, or settled and not yet dropped. */
  ghost predicate CountIsLiveGuards(s: System, p: Path) {
    && CountOf(s.counts, p) == |InFlight(s, p)| + |Prompts(s.releasing, p)|
    && (p in s.counts ==> s.counts[p] > 0)
  }

  /** Every prompt ever queued is in flight, landed or discarded. */
  ghost predicate Conserved(s: System, p: Path) {
    Prompts(s.taken, p) == InFlight(s, p) + Prompts(s.landed, p) + Prompts(s.discarded, p)
  }

  /** On a file no writer found hiding things, there is something to read once a prompt has
      landed: the prompt, or entries on lines closed before a torn tail. */
  ghost predicate LandedShows(s: System, p: Path) {
    && Books(WriterOf(s, p), BaseOf(s, p))
    && (p !in s.hiding ==>
      if AtBoundary(BaseOf(s, p)) then
        && Readable(WriterOf(s, p), BaseOf(s, p))
        && (Prompts(s.landed, p) != multiset{} ==> HasEntries(WriterOf(s, p).file))
      else HasEntries(ClosedPart(BaseOf(s, p))))
  }

  ghost predicate GateSound(s: System) {
    && (s.gate.PastCount? ==>
      s.gate.earlier <= Prompts(s.landed, s.gate.path) + Prompts(s.discarded, s.gate.path))
    && (s.gate.Answered? && !s.gate.yes && !s.gate.hidden && s.gate.whole ==>
      s.gate.earlier <= Prompts(s.discarded, s.gate.path))
  }

  // ---- Counting prompts -----------------------------------------------------

  lemma AddAssociates<T>(a: multiset<T>, b: multiset<T>, c: multiset<T>)
    ensures (a + b) + c == a + (b + c)
  {}

  lemma PromptsInOne(q: Queued)
    ensures PromptsIn([q]) == IfPrompt(q)
  {
    assert [q][1..] == [];
  }

  lemma PromptsInFirst(qs: seq<Queued>)
    requires qs != []
    ensures PromptsIn(qs) == IfPrompt(qs[0]) + PromptsIn(qs[1..])
  {}

  lemma {:induction false} PromptsInAppend(a: seq<Queued>, b: seq<Queued>)
    ensures PromptsIn(a + b) == PromptsIn(a) + PromptsIn(b)
  {
    if a == [] {
      assert a + b == b;
    } else {
      PromptsInAppend(a[1..], b);
      assert (a + b)[0] == a[0] && (a + b)[1..] == a[1..] + b;
      PromptsInFirst(a + b);
      AddAssociates(IfPrompt(a[0]), PromptsIn(a[1..]), PromptsIn(b));
    }
  }

  lemma {:induction false} AtAppend(a: seq<Job>, b: seq<Job>, p: Path)
    ensures At(a + b, p) == At(a, p) + At(b, p)
  {
    if a == [] {
      assert a + b == b;
    } else {
      AtAppend(a[1..], b, p);
      assert (a + b)[0] == a[0] && (a + b)[1..] == a[1..] + b;
      AssociateConcat(if a[0].path == p then [a[0].q] else [], At(a[1..], p), At(b, p));
    }
  }

  lemma PromptsAppend(a: seq<Job>, b: seq<Job>, p: Path)
    ensures Prompts(a + b, p) == Prompts(a, p) + Prompts(b, p)
  {
    AtAppend(a, b, p);
    PromptsInAppend(At(a, p), At(b, p));
  }

  /** What one job adds to a path's prompts. */
  function One(job: Job, p: Path): multiset<Queued> {
    if job.path == p then IfPrompt(job.q) else multiset{}
  }

  lemma PromptsOne(job: Job, p: Path)
    ensures Prompts([job], p) == One(job, p)
  {
    PromptsInOne(job.q);
    assert [job][1..] == [];
    assert At([job], p) == if job.path == p then [job.q] else [];
  }

  lemma PromptsSnoc(jobs: seq<Job>, job: Job, p: Path)
    ensures Prompts(jobs + [job], p) == Prompts(jobs, p) + One(job, p)
  {
    PromptsAppend(jobs, [job], p);
    PromptsOne(job, p);
  }

  lemma PromptsWithout(jobs: seq<Job>, i: nat, p: Path)
    requires i < |jobs|
    ensures Prompts(jobs, p) == Prompts(Without(jobs, i), p) + One(jobs[i], p)
  {
    assert jobs == jobs[..i] + [jobs[i]] + jobs[i + 1..];
    PromptsAppend(jobs[..i] + [jobs[i]], jobs[i + 1..], p);
    PromptsSnoc(jobs[..i], jobs[i], p);
    PromptsAppend(jobs[..i], jobs[i + 1..], p);
  }

  lemma {:induction false} PromptsOn(p: Path, qs: seq<Queued>, at: Path)
    ensures Prompts(On(p, qs), at) == Here(at, p, qs)
  {
    if qs != [] {
      PromptsOn(p, qs[1..], at);
      assert On(p, qs) == [Job(p, qs[0])] + On(p, qs[1..]);
      PromptsAppend([Job(p, qs[0])], On(p, qs[1..]), at);
      PromptsOne(Job(p, qs[0]), at);
    }
  }

  lemma {:induction false} SomePrompt(qs: seq<Queued>) returns (i: nat)
    requires PromptsIn(qs) != multiset{}
    ensures i < |qs| && IsPrompt(qs[i])
  {
    if IsPrompt(qs[0]) {
      i := 0;
    } else {
      i := SomePrompt(qs[1..]);
      i := i + 1;
    }
  }

  // ---- One writer step --------------------------------------------------------

  /** A writer step keeps every record it holds or was handed: still pending, landed or
      discarded, in that order. */
  ghost predicate StepShape(w: Writer, extra: seq<Queued>, f: Writer) {
    var es := Decided(w, f);
    && f.log == w.log + es
    && w.pending + extra == f.pending + LandedBy(es) + DiscardedBy(es)
  }

  lemma FlushStepShape(w: Writer, q: seq<Queued>, b: Writer, now: nat, io: Io)
    requires b.pending == w.pending + q && b.log == w.log && !b.poisoned
    ensures StepShape(w, q, Flush(b, now, io))
  {
    if b.pending != [] {
      FlushShape(b, now, io);
      var f := Flush(b, now, io);
      if io.Lands? || io.Torn? {
        assert f.log[|f.log| - 1] == FlushEvent(b, io);
      }
    }
  }

  lemma AcceptStepShape(w: Writer, q: Queued, now: nat, sees: bool, io: Io)
    ensures StepShape(w, [q], Accept(w, q, now, sees, io))
  {
    if !w.poisoned && !(q.record.HeaderRecord? && HeaderStands(w, sees)) {
      FlushStepShape(w, [q], Buffer(w, q, now), now, io);
    }
  }

  lemma TickStepShape(w: Writer, base: seq<Cell>, now: nat, io: Io)
    requires Books(w, base)
    ensures StepShape(w, [], Do(w, Tick(now, io)))
  {
    assert w.pending + [] == w.pending;
    if !w.poisoned { FlushStepShape(w, [], w, now, io); } else { assert Deadline(w).None?; }
  }

  /** The prompts among `qs`, queued for `p`, as path `at` counts them. */
  function Here(at: Path, p: Path, qs: seq<Queued>): multiset<Queued> {
    if at == p then PromptsIn(qs) else multiset{}
  }

  lemma SettleHistories(s: System, p: Path, f: Writer, at: Path)
    ensures var t, es := Settle(s, p, f), Decided(WriterOf(s, p), f);
            var landed, lost := Here(at, p, LandedBy(es)), Here(at, p, DiscardedBy(es));
            && Prompts(t.landed, at) == Prompts(s.landed, at) + landed
            && Prompts(t.discarded, at) == Prompts(s.discarded, at) + lost
            && Prompts(t.releasing, at) == Prompts(s.releasing, at) + landed + lost
  {
    var es := Decided(WriterOf(s, p), f);
    var landed, lost := On(p, LandedBy(es)), On(p, DiscardedBy(es));
    PromptsOn(p, LandedBy(es), at);
    PromptsOn(p, DiscardedBy(es), at);
    PromptsAppend(s.landed, landed, at);
    PromptsAppend(s.discarded, lost, at);
    PromptsAppend(s.releasing + landed, lost, at);
    PromptsAppend(s.releasing, landed, at);
  }

  lemma Regroup<T>(a: multiset<T>, b: multiset<T>, x: multiset<T>, c: multiset<T>, y: multiset<T>, z: multiset<T>)
    requires b + x == c + y + z
    ensures (a + b) + x == (a + c) + y + z
  {
    assert (a + b) + x == a + (b + x);
    assert (a + c) + y + z == a + (c + y + z);
  }

  lemma SettleInFlight(s: System, p: Path, f: Writer, extra: seq<Queued>, at: Path)
    requires StepShape(WriterOf(s, p), extra, f)
    ensures var es := Decided(WriterOf(s, p), f);
            InFlight(s, at) + Here(at, p, extra) ==
            InFlight(Settle(s, p, f), at) + Here(at, p, LandedBy(es)) + Here(at, p, DiscardedBy(es))
  {
    var t := Settle(s, p, f);
    if at == p {
      SettlePending(WriterOf(s, p), extra, f);
      assert WriterOf(t, p) == f;
      var es := Decided(WriterOf(s, p), f);
      Regroup(Prompts(s.sending, p) + Prompts(s.queue, p), PromptsIn(WriterOf(s, p).pending), PromptsIn(extra),
              PromptsIn(f.pending), PromptsIn(LandedBy(es)), PromptsIn(DiscardedBy(es)));
    } else {
      assert WriterOf(t, at) == WriterOf(s, at);
    }
  }

  lemma SettlePending(w: Writer, extra: seq<Queued>, f: Writer)
    requires StepShape(w, extra, f)
    ensures PromptsIn(w.pending) + PromptsIn(extra)
         == PromptsIn(f.pending) + PromptsIn(LandedBy(Decided(w, f))) + PromptsIn(DiscardedBy(Decided(w, f)))
  {
    var es := Decided(w, f);
    PromptsInAppend(w.pending, extra);
    PromptsInAppend(f.pending + LandedBy(es), DiscardedBy(es));
    PromptsInAppend(f.pending, LandedBy(es));
  }

  /** A settled step keeps the count and the conservation law, `extra` being what the
      writer was handed on top of what was in flight. */
  lemma SettleKeepsCounts(s: System, p: Path, f: Writer, extra: seq<Queued>, at: Path)
    requires StepShape(WriterOf(s, p), extra, f)
    requires var more := Here(at, p, extra);
             && CountOf(s.counts, at) == |InFlight(s, at)| + |more| + |Prompts(s.releasing, at)|
             && Prompts(s.taken, at) == InFlight(s, at) + more + Prompts(s.landed, at) + Prompts(s.discarded, at)
    requires at in s.counts ==> s.counts[at] > 0
    ensures CountIsLiveGuards(Settle(s, p, f), at) && Conserved(Settle(s, p, f), at)
  {
    SettleHistories(s, p, f, at);
    SettleInFlight(s, p, f, extra, at);
    var es := Decided(WriterOf(s, p), f);
    Rebalance(InFlight(s, at), Here(at, p, extra), InFlight(Settle(s, p, f), at), Here(at, p, LandedBy(es)),
              Here(at, p, DiscardedBy(es)), Prompts(s.landed, at), Prompts(s.discarded, at), Prompts(s.releasing, at));
  }

  /** What leaves one side of the books arrives on the other. */
  lemma Rebalance<T>(before: multiset<T>, more: multiset<T>, after: multiset<T>, l: multiset<T>, d: multiset<T>,
                     landed: multiset<T>, discarded: multiset<T>, releasing: multiset<T>)
    requires before + more == after + l + d
    ensures before + more + landed + discarded == after + (landed + l) + (discarded + d)
    ensures |before| + |more| + |releasing| == |after| + |releasing + l + d|
  {
    assert |before + more| == |after + l + d|;
  }

  lemma EntriesGrow(a: seq<Record>, b: seq<Record>)
    ensures EntriesOf(a) != [] ==> EntriesOf(a + b) != []
  {
    EntriesOfAppend(a, b);
  }

  /** An entry on a closed line is there whatever is appended, mid-line or not. */
  lemma ClosedEntryShows(file: seq<Cell>, longer: seq<Cell>)
    requires file <= longer && HasEntries(ClosedPart(file))
    ensures HasEntries(longer)
  {
    var head := ClosedPart(file);
    assert longer == head + longer[|head|..];
    ParseAppend(head, longer[|head|..]);
    EntriesGrow(Parse(head), Parse(longer[|head|..]));
  }

  lemma HasEntriesGrows(w: Writer, f: Writer, base: seq<Cell>)
    requires AtBoundary(base) && Readable(w, base) && Readable(f, base)
    requires f.log == w.log + Decided(w, f)
    ensures HasEntries(w.file) ==> HasEntries(f.file)
  {
    var es := Decided(w, f);
    if es == [] {
      assert f.log == w.log;
    } else {
      assert f.log == w.log + [es[0]];
      GatherSnoc(w.log, es[0], EventRecords);
      AssociateConcat(Parse(base), Gather(w.log, EventRecords), EventRecords(es[0]));
      EntriesGrow(Parse(w.file), EventRecords(es[0]));
    }
  }

  lemma LandedByShows(w: Writer, f: Writer, base: seq<Cell>)
    requires AtBoundary(base) && Readable(f, base)
    requires f.log == w.log + Decided(w, f)
    requires PromptsIn(LandedBy(Decided(w, f))) != multiset{}
    ensures HasEntries(f.file)
  {
    var i := SomePrompt(LandedBy(Decided(w, f)));
    LandedEntryIsReadable(f, base, |f.log| - 1, i);
  }

  lemma SettleKeepsShows(s: System, p: Path, f: Writer, extra: seq<Queued>, at: Path)
    requires StepShape(WriterOf(s, p), extra, f)
    requires LandedShows(s, at)
    requires at == p ==> Books(f, BaseOf(s, p))
    requires at == p && AtBoundary(BaseOf(s, p)) && p !in s.hiding ==> Readable(f, BaseOf(s, p))
    ensures LandedShows(Settle(s, p, f), at)
  {
    SettleHistories(s, p, f, at);
    if at != p {
      assert WriterOf(Settle(s, p, f), at) == WriterOf(s, at);
    } else if p !in s.hiding && AtBoundary(BaseOf(s, p)) {
      var w := WriterOf(s, p);
      HasEntriesGrows(w, f, BaseOf(s, p));
      if PromptsIn(LandedBy(Decided(w, f))) != multiset{} {
        LandedByShows(w, f, BaseOf(s, p));
      }
    }
  }

  // ---- Every step keeps the invariant -------------------------------------------

  ghost predicate PathInv(s: System, p: Path) {
    CountIsLiveGuards(s, p) && Conserved(s, p) && LandedShows(s, p)
  }

  ghost predicate Counted(s: System, p: Path) {
    CountIsLiveGuards(s, p) && Conserved(s, p)
  }

  lemma ShowsUnchanged(s: System, t: System, p: Path)
    requires LandedShows(s, p)
    requires t.writers == s.writers && t.bases == s.bases && t.hiding == s.hiding && t.landed == s.landed
    ensures LandedShows(t, p)
  {}

  lemma SwapLast<T>(a: multiset<T>, b: multiset<T>, c: multiset<T>, x: multiset<T>)
    ensures (a + x) + b + c == (a + b + c) + x
    ensures a + (b + x) + c == (a + b + c) + x
  {}

  lemma TakeInFlight(s: System, job: Job, at: Path)
    ensures InFlight(TakeStep(s, job), at) == InFlight(s, at) + One(job, at)
    ensures Prompts(TakeStep(s, job).taken, at) == Prompts(s.taken, at) + One(job, at)
  {
    PromptsSnoc(s.sending, job, at);
    PromptsSnoc(s.taken, job, at);
    SwapLast(Prompts(s.sending, at), Prompts(s.queue, at), PromptsIn(WriterOf(s, at).pending), One(job, at));
  }

  lemma RaiseCount(counts: map<Path, nat>, job: Job, at: Path)
    ensures var after := if IsPrompt(job.q) then Raise(counts, job.path) else counts;
            && CountOf(after, at) == CountOf(counts, at) + |One(job, at)|
            && (at in after ==> at in counts || after[at] > 0)
            && (at in counts ==> at in after && after[at] >= counts[at])
  {}

  lemma TakeKeeps(s: System, job: Job, at: Path)
    requires Counted(s, at)
    ensures Counted(TakeStep(s, job), at)
  {
    TakeInFlight(s, job, at);
    RaiseCount(s.counts, job, at);
    var x := One(job, at);
    assert InFlight(s, at) + x + Prompts(s.landed, at) + Prompts(s.discarded, at)
        == InFlight(s, at) + Prompts(s.landed, at) + Prompts(s.discarded, at) + x;
  }

  lemma SendInFlight(s: System, i: nat, fits: bool, at: Path)
    requires i < |s.sending|
    ensures var x, t := One(s.sending[i], at), SendStep(s, i, fits);
            if fits then InFlight(t, at) == InFlight(s, at) else InFlight(t, at) + x == InFlight(s, at)
  {
    var job, rest := s.sending[i], Without(s.sending, i);
    PromptsWithout(s.sending, i, at);
    PromptsSnoc(s.queue, job, at);
    SwapLast(Prompts(rest, at), Prompts(s.queue, at), PromptsIn(WriterOf(s, at).pending), One(job, at));
  }

  lemma SendKeeps(s: System, i: nat, fits: bool, at: Path)
    requires Counted(s, at) && i < |s.sending|
    ensures Counted(SendStep(s, i, fits), at)
  {
    var x, t := One(s.sending[i], at), SendStep(s, i, fits);
    SendInFlight(s, i, fits, at);
    if !fits {
      PromptsSnoc(s.releasing, s.sending[i], at);
      PromptsSnoc(s.discarded, s.sending[i], at);
      assert InFlight(t, at) + x + Prompts(s.landed, at) + Prompts(s.discarded, at)
          == InFlight(t, at) + Prompts(s.landed, at) + (Prompts(s.discarded, at) + x);
    }
  }

  lemma LowerCount(counts: map<Path, nat>, job: Job, at: Path)
    requires at in counts ==> counts[at] > 0
    requires One(job, at) != multiset{} ==> CountOf(counts, at) > 0
    ensures var after := if IsPrompt(job.q) then Lower(counts, job.path) else counts;
            && CountOf(after, at) + |One(job, at)| == CountOf(counts, at)
            && (at in after ==> after[at] > 0)
  {}

  lemma DropInFlight(s: System, i: nat, at: Path)
    requires i < |s.releasing|
    ensures InFlight(DropStep(s, i), at) == InFlight(s, at)
  {}

  lemma DropKeeps(s: System, i: nat, at: Path)
    requires Counted(s, at) && i < |s.releasing|
    ensures Counted(DropStep(s, i), at)
  {
    DropInFlight(s, i, at);
    PromptsWithout(s.releasing, i, at);
    LowerCount(s.counts, s.releasing[i], at);
  }

  lemma AcceptKeepsShows(w: Writer, base: seq<Cell>, q: Queued, now: nat, sees: bool, io: Io)
    requires Books(w, base)
    ensures Books(Accept(w, q, now, sees, io), base)
    ensures Readable(w, base) ==> Readable(Accept(w, q, now, sees, io), base)
  {
    AcceptKeepsBooks(w, base, q, now, sees, io);
    if Readable(w, base) { AcceptKeepsReadable(w, base, q, now, sees, io); }
  }

  lemma TickKeepsShows(w: Writer, base: seq<Cell>, now: nat, io: Io)
    requires Books(w, base)
    ensures Books(Do(w, Tick(now, io)), base)
    ensures Readable(w, base) ==> Readable(Do(w, Tick(now, io)), base)
  {
    FlushKeepsBooks(w, base, now, io);
    if Readable(w, base) { FlushKeepsReadable(w, base, now, io); }
  }

  lemma ServeKeepsCounted(s: System, now: nat, sees: bool, io: Io, at: Path)
    requires s.queue != [] && Counted(s, at)
    ensures Counted(ServeStep(s, now, sees, io), at)
  {
    var job := s.queue[0];
    var p, rest := job.path, s.(queue := s.queue[1..]);
    assert Without(s.queue, 0) == s.queue[1..];
    PromptsWithout(s.queue, 0, at);
    AcceptStepShape(WriterOf(s, p), job.q, now, sees, io);
    ServedCounts(s, rest, job, at);
    SettleKeepsCounts(rest, p, Accept(WriterOf(s, p), job.q, now, sees, io), [job.q], at);
  }

  lemma ServeKeepsShows(s: System, now: nat, sees: bool, io: Io, at: Path)
    requires s.queue != [] && LandedShows(s, at) && LandedShows(s, s.queue[0].path)
    ensures LandedShows(ServeStep(s, now, sees, io), at)
  {
    var job := s.queue[0];
    var p, rest := job.path, s.(queue := s.queue[1..]);
    AcceptStepShape(WriterOf(s, p), job.q, now, sees, io);
    AcceptKeepsShows(WriterOf(s, p), BaseOf(s, p), job.q, now, sees, io);
    ShowsUnchanged(s, rest, at);
    SettleKeepsShows(rest, p, Accept(WriterOf(s, p), job.q, now, sees, io), [job.q], at);
  }

  lemma ServedCounts(s: System, rest: System, job: Job, at: Path)
    requires rest == s.(queue := rest.queue)
    requires Prompts(s.queue, at) == Prompts(rest.queue, at) + One(job, at)
    requires CountIsLiveGuards(s, at) && Conserved(s, at)
    ensures var more := Here(at, job.path, [job.q]);
            && CountOf(rest.counts, at) == |InFlight(rest, at)| + |more| + |Prompts(rest.releasing, at)|
            && Prompts(rest.taken, at)
               == InFlight(rest, at) + more + Prompts(rest.landed, at) + Prompts(rest.discarded, at)
  {
    PromptsInOne(job.q);
    SwapLast(Prompts(s.sending, at), Prompts(rest.queue, at), PromptsIn(WriterOf(s, at).pending), One(job, at));
    assert InFlight(s, at) == InFlight(rest, at) + Here(at, job.path, [job.q]);
  }

  lemma DueKeepsCounted(s: System, p: Path, now: nat, io: Io, at: Path)
    requires Counted(s, at) && LandedShows(s, p)
    ensures Counted(DueStep(s, p, now, io), at)
  {
    TickStepShape(WriterOf(s, p), BaseOf(s, p), now, io);
    assert Here(at, p, []) == multiset{};
    SettleKeepsCounts(s, p, Do(WriterOf(s, p), Tick(now, io)), [], at);
  }

  lemma DueKeepsShows(s: System, p: Path, now: nat, io: Io, at: Path)
    requires LandedShows(s, at) && LandedShows(s, p)
    ensures LandedShows(DueStep(s, p, now, io), at)
  {
    TickStepShape(WriterOf(s, p), BaseOf(s, p), now, io);
    TickKeepsShows(WriterOf(s, p), BaseOf(s, p), now, io);
    SettleKeepsShows(s, p, Do(WriterOf(s, p), Tick(now, io)), [], at);
  }

  lemma EvictKeepsCounted(s: System, p: Path, at: Path)
    requires Counted(s, at) && WriterOf(s, p).pending == []
    ensures Counted(EvictStep(s, p), at)
  {
    assert WriterOf(EvictStep(s, p), at).pending == WriterOf(s, at).pending;
  }

  lemma EvictKeepsShows(s: System, p: Path, at: Path)
    requires LandedShows(s, at)
    ensures LandedShows(EvictStep(s, p), at)
  {
    var t := EvictStep(s, p);
    if at == p {
      var file := WriterOf(s, p).file;
      NewWriterInv(file, Projection.START);
      assert WriterOf(t, p) == NewWriter(file) && BaseOf(t, p) == file;
      if p !in s.hiding && !AtBoundary(BaseOf(s, p)) { ClosedEntryShows(BaseOf(s, p), file); }
    } else {
      assert WriterOf(t, at) == WriterOf(s, at) && BaseOf(t, at) == BaseOf(s, at);
      assert at in t.hiding <==> at in s.hiding;
    }
  }

  /** The path a move's writer step works on. */
  function Touched(s: System, m: Move): Path {
    match m
    case Serve(_, _, _) => if s.queue != [] then s.queue[0].path else ""
    case Due(p, _, _) => p
    case Evict(p) => p
    case _ => ""
  }

  predicate IsWriterMove(m: Move) { m.Serve? || m.Due? || m.Evict? }

  lemma WriterKeepsCounted(s: System, m: Move, at: Path)
    requires IsWriterMove(m) && Counted(s, at) && LandedShows(s, Touched(s, m))
    ensures Counted(Next(s, m), at)
  {
    match m
    case Serve(now, sees, io) => if s.queue != [] { ServeKeepsCounted(s, now, sees, io, at); }
    case Due(p, now, io) => DueKeepsCounted(s, p, now, io, at);
    case Evict(p) => if WriterOf(s, p).pending == [] { EvictKeepsCounted(s, p, at); }
  }

  lemma GateKeepsCounted(s: System, m: Move, at: Path)
    requires (m.GateCount? || m.GateFile?) && Counted(s, at)
    ensures Counted(Next(s, m), at)
  {
    CountedUnchanged(s, Next(s, m), at);
  }

  lemma NextKeepsCounted(s: System, m: Move, at: Path)
    requires Counted(s, at) && LandedShows(s, Touched(s, m))
    ensures Counted(Next(s, m), at)
  {
    if IsWriterMove(m) {
      WriterKeepsCounted(s, m, at);
    } else if m.GateCount? || m.GateFile? {
      GateKeepsCounted(s, m, at);
    } else if m.Take? {
      TakeKeeps(s, m.job, at);
    } else if m.Send? {
      if m.i < |s.sending| { SendKeeps(s, m.i, m.fits, at); }
    } else {
      if m.i < |s.releasing| { DropKeeps(s, m.i, at); }
    }
  }

  lemma CountedUnchanged(s: System, t: System, at: Path)
    requires Counted(s, at) && t == s.(gate := t.gate)
    ensures Counted(t, at)
  {}

  lemma NextKeepsShows(s: System, m: Move, at: Path)
    requires LandedShows(s, at) && LandedShows(s, Touched(s, m))
    ensures LandedShows(Next(s, m), at)
  {
    match m
    case Serve(now, sees, io) => if s.queue != [] { ServeKeepsShows(s, now, sees, io, at); }
    case Due(p, now, io) => DueKeepsShows(s, p, now, io, at);
    case Evict(p) => if WriterOf(s, p).pending == [] { EvictKeepsShows(s, p, at); }
    case Take(job) => ShowsUnchanged(s, TakeStep(s, job), at);
    case Send(i, fits) => if i < |s.sending| { ShowsUnchanged(s, SendStep(s, i, fits), at); }
    case Drop(i) => if i < |s.releasing| { ShowsUnchanged(s, DropStep(s, i), at); }
    case GateCount(p) => ShowsUnchanged(s, GateCountStep(s, p), at);
    case GateFile(scan) => if s.gate.PastCount? { ShowsUnchanged(s, GateFileStep(s, scan), at); }
  }

  lemma HistoriesGrowOnServe(s: System, now: nat, sees: bool, io: Io, at: Path)
    requires s.queue != []
    ensures Prompts(s.landed, at) <= Prompts(ServeStep(s, now, sees, io).landed, at)
    ensures Prompts(s.discarded, at) <= Prompts(ServeStep(s, now, sees, io).discarded, at)
  {
    var job := s.queue[0];
    SettleHistories(s.(queue := s.queue[1..]), job.path, Accept(WriterOf(s, job.path), job.q, now, sees, io), at);
  }

  lemma HistoriesGrowOnDue(s: System, p: Path, now: nat, io: Io, at: Path)
    ensures Prompts(s.landed, at) <= Prompts(DueStep(s, p, now, io).landed, at)
    ensures Prompts(s.discarded, at) <= Prompts(DueStep(s, p, now, io).discarded, at)
  {
    SettleHistories(s, p, Do(WriterOf(s, p), Tick(now, io)), at);
  }

  lemma HistoriesUnchanged(s: System, m: Move)
    requires !m.Send? && !m.Serve? && !m.Due?
    ensures Next(s, m).landed == s.landed && Next(s, m).discarded == s.discarded
  {}

  /** What is landed or discarded stays so. */
  lemma HistoriesGrow(s: System, m: Move, at: Path)
    ensures Prompts(s.landed, at) <= Prompts(Next(s, m).landed, at)
    ensures Prompts(s.discarded, at) <= Prompts(Next(s, m).discarded, at)
  {
    if m.Send? {
      if m.i < |s.sending| { PromptsSnoc(s.discarded, s.sending[m.i], at); }
    } else if m.Serve? {
      if s.queue != [] { HistoriesGrowOnServe(s, m.now, m.sees, m.io, at); }
    } else if m.Due? {
      HistoriesGrowOnDue(s, m.path, m.now, m.io, at);
    } else {
      HistoriesUnchanged(s, m);
    }
  }

  lemma GateCountSound(s: System, p: Path)
    requires PathInv(s, p)
    ensures GateSound(GateCountStep(s, p))
  {
    if p !in s.counts {
      assert |InFlight(s, p)| == 0;
      assert InFlight(s, p) == multiset{};
    }
  }

  lemma NextKeepsPaths(s: System, m: Move)
    requires forall p :: PathInv(s, p)
    ensures forall p :: PathInv(Next(s, m), p)
  {
    assert PathInv(s, Touched(s, m));
    forall p ensures PathInv(Next(s, m), p) {
      assert PathInv(s, p);
      NextKeepsCounted(s, m, p);
      NextKeepsShows(s, m, p);
    }
  }

  lemma OnlyTheGateMovesIt(s: System, m: Move)
    requires !m.GateCount? && !m.GateFile?
    ensures Next(s, m).gate == s.gate
  {}

  lemma NextKeepsGate(s: System, m: Move)
    requires GateSound(s)
    requires m.GateCount? ==> PathInv(s, m.path)
    requires m.GateFile? && s.gate.PastCount? ==> LandedShows(s, s.gate.path)
    ensures GateSound(Next(s, m))
  {
    if m.GateCount? {
      GateCountSound(s, m.path);
    } else if m.GateFile? {
      if s.gate.PastCount? { GateFileSound(s, m.scan); }
    } else {
      OnlyTheGateMovesIt(s, m);
      GateStaysSound(s, Next(s, m), m);
    }
  }

  lemma GateStaysSound(s: System, t: System, m: Move)
    requires GateSound(s) && t == Next(s, m) && t.gate == s.gate
    ensures GateSound(t)
  {
    if !s.gate.Asleep? {
      HistoriesGrow(s, m, s.gate.path);
    }
  }

  lemma GateFileSound(s: System, scan: Scan)
    requires GateSound(s) && s.gate.PastCount? && LandedShows(s, s.gate.path)
    ensures GateSound(GateFileStep(s, scan))
  {
    var base, file := BaseOf(s, s.gate.path), WriterOf(s, s.gate.path).file;
    if !AtBoundary(base) && HasEntries(ClosedPart(base)) { ClosedEntryShows(base, file); }
  }

  lemma {:induction false} StepsKeepInv(s: System, moves: seq<Move>)
    requires (forall p :: PathInv(s, p)) && GateSound(s)
    ensures (forall p :: PathInv(Steps(s, moves), p)) && GateSound(Steps(s, moves))
    decreases |moves|
  {
    if moves != [] {
      if moves[0].GateCount? { assert PathInv(s, moves[0].path); }
      if s.gate.PastCount? { assert PathInv(s, s.gate.path); }
      NextKeepsPaths(s, moves[0]);
      NextKeepsGate(s, moves[0]);
      StepsKeepInv(Next(s, moves[0]), moves[1..]);
    }
  }

  lemma BootInv(files: map<Path, seq<Cell>>)
    ensures forall p :: PathInv(Boot(files), p)
    ensures GateSound(Boot(files))
  {
    forall p ensures PathInv(Boot(files), p) {
      NewWriterInv(if p in files then files[p] else [], Projection.START);
    }
  }

  // ---- The theorems ---------------------------------------------------------

  /** In every interleaving, the shared count of a path is the number of live guards
      on it, and every prompt ever queued is in flight, landed or discarded. */
  lemma CountsAreLiveGuards(files: map<Path, seq<Cell>>, moves: seq<Move>, p: Path)
    ensures var s := Steps(Boot(files), moves);
            && CountOf(s.counts, p) == |InFlight(s, p)| + |Prompts(s.releasing, p)|
            && (p in s.counts <==> CountOf(s.counts, p) > 0)
            && Prompts(s.taken, p) == InFlight(s, p) + Prompts(s.landed, p) + Prompts(s.discarded, p)
  {
    BootInv(files);
    StepsKeepInv(Boot(files), moves);
    assert PathInv(Steps(Boot(files), moves), p);
  }

  /** No interleaving yields a false "no": if the gate, whatever happened around and between
      its two reads, answered that a conversation has no history, then every prompt queued
      for it before the gate started was discarded. That takes a file no writer found
      hiding what it appends, and a read that gets through it. */
  lemma NoFalseNo(files: map<Path, seq<Cell>>, moves: seq<Move>)
    ensures var s := Steps(Boot(files), moves);
            s.gate.Answered? && !s.gate.yes && !s.gate.hidden && s.gate.whole ==>
              s.gate.earlier <= Prompts(s.discarded, s.gate.path)
  {
    BootInv(files);
    StepsKeepInv(Boot(files), moves);
  }

  // ---- The channel keeps order ----------------------------------------------------

  /** What a move hands to the channel, and what the writer thread takes from it. */
  function SentNow(s: System, m: Move): seq<Job> {
    if m.Send? && m.i < |s.sending| && m.fits then [s.sending[m.i]] else []
  }

  function ServedNow(s: System, m: Move): seq<Job> {
    if m.Serve? && s.queue != [] then [s.queue[0]] else []
  }

  function SentBy(s: System, moves: seq<Move>): seq<Job>
    decreases |moves|
  {
    if moves == [] then [] else SentNow(s, moves[0]) + SentBy(Next(s, moves[0]), moves[1..])
  }

  function ServedBy(s: System, moves: seq<Move>): seq<Job>
    decreases |moves|
  {
    if moves == [] then [] else ServedNow(s, moves[0]) + ServedBy(Next(s, moves[0]), moves[1..])
  }

  lemma NextQueue(s: System, m: Move)
    ensures s.queue + SentNow(s, m) == ServedNow(s, m) + Next(s, m).queue
  {
    if m.Serve? && s.queue != [] { assert s.queue == [s.queue[0]] + s.queue[1..]; }
  }

  lemma Spliced<T>(q: seq<T>, a: seq<T>, b: seq<T>, p: seq<T>, more: seq<T>, rest: seq<T>, end: seq<T>)
    requires q + a == b + p && p + more == rest + end
    ensures q + (a + more) == (b + rest) + end
  {
    assert q + (a + more) == (q + a) + more == (b + p) + more == b + (p + more) == b + (rest + end);
  }

  /** First in, first served: over every run, what was handed to the channel is, in that order,
      what the writer thread has taken and then what is still queued. */
  lemma {:induction false} ServedInOrder(s: System, moves: seq<Move>)
    ensures s.queue + SentBy(s, moves) == ServedBy(s, moves) + Steps(s, moves).queue
    decreases |moves|
  {
    if moves == [] {
      assert s.queue + [] == s.queue == [] + s.queue;
    } else {
      var m, next, rest := moves[0], Next(s, moves[0]), moves[1..];
      NextQueue(s, m);
      ServedInOrder(next, rest);
      Spliced(s.queue, SentNow(s, m), ServedNow(s, m), next.queue, SentBy(next, rest), ServedBy(next, rest),
              Steps(next, rest).queue);
    }
  }
}
