/** One session's writer as a value: what accepting a record and flushing the buffer do
    to the file and to the waiting callers, for every outcome the disk can give. */
module WriterModel {
  import opened Records
  import opened TranscriptFile
  import opened Compaction

  /** A record on its way to disk, with the ticket of the caller waiting on it. */
  datatype Queued = Queued(ticket: nat, record: Record)

  /** A caller's answer: the ack fired (landed), or was dropped. */
  datatype Answer = Answer(ticket: nat, landed: bool)

  /** How one flush's I/O goes: opening or seeking fails, the write lands, it fails and
      is rolled back, or it fails after `wrote` cells that cannot be removed (and the
      newline that restores the record boundary does or does not land). */
  datatype Io = CannotOpen | Lands | RolledBack(wrote: nat) | Torn(wrote: nat, newline: bool)

  /** What became of a record, in the order it was decided. */
  datatype Event =
    | Landed(batch: seq<Queued>, live: bool)
    | Abandoned(batch: seq<Queued>, live: bool, wrote: nat, closed: bool)
    | Refused(q: Queued)
    | Repeated(q: Queued)

  datatype Writer = Writer(
    file: seq<Cell>,
    pending: seq<Queued>,
    compactable: bool,
    headerWritten: bool,
    poisoned: bool,
    oldestPendingAt: Option<nat>,
    failures: nat,
    answers: seq<Answer>,
    accepted: seq<Queued>,
    log: seq<Event>)

  const FLUSH_WINDOW_MS := 1000

  function NewWriter(file: seq<Cell>): Writer {
    Writer(file, [], false, false, false, None, 0, [], [], [])
  }

  function RecordsOf(batch: seq<Queued>): (rs: seq<Record>)
    ensures |rs| == |batch|
  {
    seq(|batch|, i requires 0 <= i < |batch| => batch[i].record)
  }

  function AnswersFor(batch: seq<Queued>, landed: bool): (answers: seq<Answer>)
    ensures |answers| == |batch|
  {
    seq(|batch|, i requires 0 <= i < |batch| => Answer(batch[i].ticket, landed))
  }

  predicate HoldsHeader(batch: seq<Queued>) {
    exists i :: 0 <= i < |batch| && batch[i].record.HeaderRecord?
  }

  /** `header_already_stands`; `sees` is whether the file's size could be looked up. A lookup
      that fails reads as an empty file. */
  predicate HeaderStands(w: Writer, sees: bool) {
    w.headerWritten || HoldsHeader(w.pending) || (sees && w.file != [])
  }

  function Deadline(w: Writer): Option<nat> {
    if w.oldestPendingAt.Some? then Some(w.oldestPendingAt.value + FLUSH_WINDOW_MS) else None
  }

  function ResolveAll(w: Writer, landed: bool): Writer {
    w.(pending := [], answers := w.answers + AnswersFor(w.pending, landed), oldestPendingAt := None)
  }

  function Defer(w: Writer, now: nat): Writer {
    w.(oldestPendingAt := Some(now), failures := w.failures + 1)
  }

  function Batch(w: Writer): (seq<Record>, bool) {
    Compact(RecordsOf(w.pending), w.compactable)
  }

  /** How much of the batch a torn write leaves: never all of it. */
  function Cut(lines: seq<Cell>, wrote: nat): (n: nat)
    requires lines != []
    ensures n < |lines|
  {
    if wrote < |lines| then wrote else |lines| - 1
  }

  function Flush(w: Writer, now: nat, io: Io): Writer {
    if w.pending == [] then w
    else if w.poisoned then ResolveAll(w, false)
    else
      var (out, live) := Batch(w);
      var lines := Print(out);
      if lines == [] then ResolveAll(w, true).(compactable := live)
      else
        match io
        case CannotOpen => Defer(w, now)
        case RolledBack(_) => Defer(w, now)
        case Lands =>
          ResolveAll(w, true).(
            file := w.file + lines,
            compactable := live,
            headerWritten := w.headerWritten || HoldsHeader(w.pending),
            failures := 0,
            log := w.log + [Landed(w.pending, w.compactable)])
        case Torn(wrote, newline) =>
          var n := Cut(lines, wrote);
          ResolveAll(w, false).(
            file := w.file + lines[..n] + (if newline then [Newline] else []),
            poisoned := !newline,
            log := w.log + [Abandoned(w.pending, w.compactable, n, newline)])
  }

  function Buffer(w: Writer, q: Queued, now: nat): Writer {
    w.(pending := w.pending + [q],
       accepted := w.accepted + [q],
       oldestPendingAt := if w.pending == [] then Some(now) else w.oldestPendingAt)
  }

  function Accept(w: Writer, q: Queued, now: nat, sees: bool, io: Io): Writer {
    if w.poisoned then
      w.(answers := w.answers + [Answer(q.ticket, false)], log := w.log + [Refused(q)])
    else if q.record.HeaderRecord? && HeaderStands(w, sees) then
      w.(headerWritten := true, answers := w.answers + [Answer(q.ticket, true)], log := w.log + [Repeated(q)])
    else if IsBoundary(q.record) || !w.compactable then Flush(Buffer(w, q, now), now, io)
    else Buffer(w, q, now)
  }

  /** One turn of the writer thread, as far as this session is concerned. */
  datatype Op = Offer(q: Queued, now: nat, sees: bool, io: Io) | Tick(now: nat, io: Io)

  function Do(w: Writer, op: Op): Writer {
    match op
    case Offer(q, now, sees, io) => Accept(w, q, now, sees, io)
    case Tick(now, io) =>
      if Deadline(w).Some? && Deadline(w).value <= now then Flush(w, now, io) else w
  }

  function Run(w: Writer, ops: seq<Op>): Writer
    decreases |ops|
  {
    if ops == [] then w else Run(Do(w, ops[0]), ops[1..])
  }

  lemma {:induction false} RunSnoc(w: Writer, ops: seq<Op>, op: Op)
    ensures Run(w, ops + [op]) == Do(Run(w, ops), op)
    decreases |ops|
  {
    if ops == [] {
      assert [] + [op] == [op] && [op][1..] == [];
    } else {
      assert (ops + [op])[0] == ops[0] && (ops + [op])[1..] == ops[1..] + [op];
      RunSnoc(Do(w, ops[0]), ops[1..], op);
    }
  }

  // ---- What the log says ----------------------------------------------------

  function EventCells(e: Event): seq<Cell> {
    match e
    case Landed(batch, live) => Print(Compact(RecordsOf(batch), live).0)
    case Abandoned(batch, live, wrote, closed) =>
      var lines := Print(Compact(RecordsOf(batch), live).0);
      lines[..if wrote <= |lines| then wrote else |lines|] + (if closed then [Newline] else [])
    case _ => []
  }

  /** The lines an event leaves readable: its batch as compacted, or the whole lines of
      what a torn write left. */
  function EventRecords(e: Event): seq<Record> {
    match e
    case Landed(batch, live) => Compact(RecordsOf(batch), live).0
    case Abandoned(batch, live, wrote, _) => WholeLines(Compact(RecordsOf(batch), live).0, wrote)
    case _ => []
  }

  /** The records themselves, before merging: what the reader is owed. */
  function EventVerbatim(e: Event): seq<Record> {
    if e.Landed? then RecordsOf(e.batch) else EventRecords(e)
  }

  function EventBatch(e: Event): seq<Queued> {
    if e.Landed? || e.Abandoned? then e.batch else []
  }

  function EventAnswers(e: Event): seq<Answer> {
    match e
    case Landed(batch, _) => AnswersFor(batch, true)
    case Abandoned(batch, _, _, _) => AnswersFor(batch, false)
    case Refused(q) => [Answer(q.ticket, false)]
    case Repeated(q) => [Answer(q.ticket, true)]
  }

  function Gather<T>(log: seq<Event>, part: Event -> seq<T>): (all: seq<T>)
  {
    if log == [] then [] else Gather(log[..|log| - 1], part) + part(log[|log| - 1])
  }

  lemma GatherSnoc<T>(log: seq<Event>, e: Event, part: Event -> seq<T>)
    ensures Gather(log + [e], part) == Gather(log, part) + part(e)
  {
    assert (log + [e])[..|log|] == log;
  }

  function Turned(e: Event): seq<Queued> {
    if e.Refused? || e.Repeated? then [e.q] else []
  }

  function OfferedIn(ops: seq<Op>): (qs: seq<Queued>)
  {
    if ops == [] then [] else (if ops[0].Offer? then [ops[0].q] else []) + OfferedIn(ops[1..])
  }
}
