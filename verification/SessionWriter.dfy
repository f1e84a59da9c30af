/** The writer as the source has it: an object that edits its buffer, its flags and the
    file in place. Each method is proved to do what the value model says. */
module SessionWriters {
  import opened Records
  import opened TranscriptFile
  import opened Compaction
  import opened WriterModel

  /** The transcript file on disk. `io` decides how far each call gets. */
  class DiskFile {
    var cells: seq<Cell>

    constructor (existing: seq<Cell>)
      ensures cells == existing
    {
      cells := existing;
    }

    /** `write_all`: everything, or an error after some cells but never all of them. */
    method WriteAll(lines: seq<Cell>, io: Io) returns (ok: bool)
      requires lines != []
      modifies this
      ensures ok == io.Lands?
      ensures io.Lands? ==> cells == old(cells) + lines
      ensures io.RolledBack? || io.Torn? ==> cells == old(cells) + lines[..Cut(lines, io.wrote)]
      ensures io.CannotOpen? ==> cells == old(cells)
    {
      ok := io.Lands?;
      if io.Lands? {
        cells := cells + lines;
      } else if !io.CannotOpen? {
        cells := cells + lines[..Cut(lines, io.wrote)];
      }
    }

    method SetLen(len: nat, io: Io) returns (ok: bool)
      requires len <= |cells|
      modifies this
      ensures ok == !io.Torn?
      ensures cells == if ok then old(cells)[..len] else old(cells)
    {
      ok := !io.Torn?;
      if ok { cells := cells[..len]; }
    }

    method WriteNewline(io: Io) returns (ok: bool)
      requires io.Torn?
      modifies this
      ensures ok == io.newline
      ensures cells == old(cells) + if ok then [Newline] else []
    {
      ok := io.newline;
      if ok { cells := cells + [Newline]; }
    }
  }

  class SessionWriter {
    const disk: DiskFile
    var pending: seq<Queued>
    var compactable: bool
    var headerWritten: bool
    var poisoned: bool
    var oldestPendingAt: Option<nat>
    var consecutiveFailures: nat
    /** What the callers waiting on a record have been told. */
    var answers: seq<Answer>
    ghost var accepted: seq<Queued>
    ghost var log: seq<Event>

    ghost function Model(): Writer
      reads this, disk
    {
      Writer(disk.cells, pending, compactable, headerWritten, poisoned, oldestPendingAt,
             consecutiveFailures, answers, accepted, log)
    }

    constructor (file: DiskFile)
      ensures disk == file && Model() == NewWriter(file.cells)
    {
      disk := file;
      pending, compactable, headerWritten, poisoned := [], false, false, false;
      oldestPendingAt, consecutiveFailures, answers := None, 0, [];
      accepted, log := [], [];
    }

    method NextDeadline() returns (at: Option<nat>)
      ensures at == Deadline(Model())
    {
      at := match oldestPendingAt case Some(t) => Some(t + FLUSH_WINDOW_MS) case None => None;
    }

    method HeaderAlreadyStands(sees: bool) returns (stands: bool)
      modifies this`headerWritten
      ensures stands == old(HeaderStands(Model(), sees))
      ensures headerWritten == stands
    {
      if headerWritten { return true; }
      stands := HoldsHeader(pending) || (sees && disk.cells != []);
      if stands { headerWritten := true; }
    }

    method Accept(q: Queued, now: nat, sees: bool, io: Io)
      modifies this, disk
      ensures Model() == old(WriterModel.Accept(Model(), q, now, sees, io))
    {
      if poisoned {
        answers := answers + [Answer(q.ticket, false)];
        log := log + [Refused(q)];
        return;
      }
      if q.record.HeaderRecord? {
        var stands := HeaderAlreadyStands(sees);
        if stands {
          answers := answers + [Answer(q.ticket, true)];
          log := log + [Repeated(q)];
          return;
        }
      }
      if pending == [] { oldestPendingAt := Some(now); }
      pending := pending + [q];
      accepted := accepted + [q];
      if IsBoundary(q.record) || !compactable {
        assert Model() == Buffer(old(Model()), q, now);
        Flush(now, io);
      }
    }

    method ResolveEach(landed: bool)
      modifies this`pending, this`answers, this`oldestPendingAt
      ensures Model() == old(ResolveAll(Model(), landed))
    {
      var batch := pending;
      ghost var before := answers;
      for i := 0 to |batch|
        invariant pending == batch && oldestPendingAt == old(oldestPendingAt)
        invariant answers == before + AnswersFor(batch, landed)[..i]
      {
        answers := answers + [Answer(batch[i].ticket, landed)];
      }
      pending, oldestPendingAt := [], None;
    }

    method DeferBatch(now: nat)
      modifies this`oldestPendingAt, this`consecutiveFailures
      ensures Model() == old(Defer(Model(), now))
    {
      oldestPendingAt := Some(now);
      consecutiveFailures := consecutiveFailures + 1;
    }

    /** What a write that could not be undone leaves: the tail closed off or the writer
        poisoned, and the batch given up. */
    method GiveUp(lines: seq<Cell>, io: Io)
      requires io.Torn? && !poisoned && lines != []
      modifies this, disk
      ensures Model() == old(ResolveAll(Model(), false).(
                file := disk.cells + if io.newline then [Newline] else [],
                poisoned := !io.newline,
                log := log + [Abandoned(pending, compactable, Cut(lines, io.wrote), io.newline)]))
    {
      var closed := disk.WriteNewline(io);
      log := log + [Abandoned(pending, compactable, Cut(lines, io.wrote), closed)];
      if !closed { poisoned := true; }
      ResolveEach(false);
    }

    method WriteBatch(lines: seq<Cell>, live: bool, now: nat, io: Io)
      requires pending != [] && !poisoned && lines != []
      requires Batch(Model()).1 == live && Print(Batch(Model()).0) == lines
      modifies this, disk
      ensures Model() == old(WriterModel.Flush(Model(), now, io))
    {
      if io.CannotOpen? {
        DeferBatch(now);
        return;
      }
      ghost var w := Model();
      var before := |disk.cells|;
      var written := disk.WriteAll(lines, io);
      if written {
        log := log + [Landed(pending, compactable)];
        compactable := live;
        headerWritten := headerWritten || HoldsHeader(pending);
        consecutiveFailures := 0;
        ResolveEach(true);
      } else {
        var rolledBack := disk.SetLen(before, io);
        if rolledBack {
          assert disk.cells == w.file;
          DeferBatch(now);
        } else {
          GiveUp(lines, io);
        }
      }
    }

    method Flush(now: nat, io: Io)
      modifies this, disk
      ensures Model() == old(WriterModel.Flush(Model(), now, io))
    {
      if pending == [] { return; }
      if poisoned {
        ResolveEach(false);
        return;
      }
      var out, live := CompactBatch(RecordsOf(pending), compactable);
      var lines := Print(out);
      if lines == [] {
        // Never taken: a batch with a record in it is written as at least one line.
        assert false;
      }
      WriteBatch(lines, live, now, io);
    }
  }
}
