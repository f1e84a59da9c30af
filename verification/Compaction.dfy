/** The compactor: merges each run of streamed text chunks in a flush window into one
    record, and why no reader can tell. */
module Compaction {
  import opened Records
  import opened Merging
  import opened Projection
  import Whitespace

  predicate Mergeable(e: Entry) {
    e.Updated? && e.update.AgentChunk? && e.update.content.Plain?
  }

  /** Two chunks that may share one record: same kind, equal `_meta`. */
  predicate SameRun(a: Entry, b: Entry) {
    Mergeable(a) && Mergeable(b) && a.update.kind == b.update.kind && a.update.meta == b.update.meta
  }

  /** `open` with `next`'s text folded in, under `next`'s timestamp. */
  function Fold(open: Entry, next: Entry): (e: Entry)
    requires SameRun(open, next)
    ensures SameRun(open, e)
  {
    var text := open.update.content.text + next.update.content.text;
    Updated(next.t, AgentChunk(open.update.kind, Plain(text), open.update.meta))
  }

  /** The compactor between two records: whether the turn is live, the run being
      merged, and what is already closed. */
  datatype State = State(compactable: bool, open: Option<Entry>, out: seq<Record>)

  function Begin(compactable: bool): State { State(compactable, None, []) }

  function Closed(s: State): (out: seq<Record>)
  {
    if s.open.Some? then s.out + [EntryRecord(s.open.value)] else s.out
  }

  predicate JoinsOpenRun(s: State, r: Record) {
    s.compactable && s.open.Some? && r.EntryRecord? && SameRun(s.open.value, r.entry)
  }

  function LiveAfter(compactable: bool, r: Record): bool {
    if r.EntryRecord? && r.entry.Prompt? then true
    else if r.EntryRecord? && r.entry.TurnEnd? then false
    else compactable
  }

  function Take(s: State, r: Record): State {
    if JoinsOpenRun(s, r) then s.(open := Some(Fold(s.open.value, r.entry)))
    else if s.compactable && r.EntryRecord? && Mergeable(r.entry) then
      State(s.compactable, Some(r.entry), Closed(s))
    else State(LiveAfter(s.compactable, r), None, Closed(s) + [r])
  }

  function TakeAll(s: State, rs: seq<Record>): State
    decreases |rs|
  {
    if rs == [] then s else TakeAll(Take(s, rs[0]), rs[1..])
  }

  /** The records a batch is written as, and whether the turn is live afterwards. */
  function Compact(rs: seq<Record>, compactable: bool): (seq<Record>, bool) {
    var s := TakeAll(Begin(compactable), rs);
    (Closed(s), s.compactable)
  }

  method CompactBatch(pending: seq<Record>, compactable: bool) returns (out: seq<Record>, live: bool)
    ensures (out, live) == Compact(pending, compactable)
    ensures IsMergeOf(pending, compactable, out, live)
  {
    ghost var cuts := CompactIsMerging(pending, compactable);
    live, out := compactable, [];
    var open: Option<Entry> := None;
    for i := 0 to |pending|
      invariant TakeAll(State(live, open, out), pending[i..]) == TakeAll(Begin(compactable), pending)
    {
      var record := pending[i];
      assert pending[i..][1..] == pending[i + 1..];
      if live && record.EntryRecord? && record.entry.Updated? {
        var entry := record.entry;
        if Mergeable(entry) {
          if open.Some? && SameRun(open.value, entry) {
            open := Some(Fold(open.value, entry));
          } else {
            if open.Some? { out := out + [EntryRecord(open.value)]; }
            open := Some(entry);
          }
        } else {
          if open.Some? { out := out + [EntryRecord(open.value)]; }
          open := None;
          out := out + [record];
        }
      } else {
        if open.Some? { out := out + [EntryRecord(open.value)]; }
        open := None;
        if record.EntryRecord? {
          if record.entry.Prompt? { live := true; }
          if record.entry.TurnEnd? { live := false; }
        }
        out := out + [record];
      }
    }
    if open.Some? { out := out + [EntryRecord(open.value)]; }
  }

  lemma {:induction false} TakeAllSnoc(s: State, rs: seq<Record>, r: Record)
    ensures TakeAll(s, rs + [r]) == Take(TakeAll(s, rs), r)
    decreases |rs|
  {
    if rs == [] {
      assert [] + [r] == [r] && [r][1..] == [];
    } else {
      assert (rs + [r])[0] == rs[0] && (rs + [r])[1..] == rs[1..] + [r];
      TakeAllSnoc(Take(s, rs[0]), rs[1..], r);
    }
  }

  lemma {:induction false} TakeAllAppend(s: State, a: seq<Record>, b: seq<Record>)
    ensures TakeAll(s, a + b) == TakeAll(TakeAll(s, a), b)
    decreases |a|
  {
    if a == [] {
      assert a + b == b;
    } else {
      assert (a + b)[0] == a[0] && (a + b)[1..] == a[1..] + b;
      TakeAllAppend(Take(s, a[0]), a[1..], b);
    }
  }

  lemma CompactOne(r: Record)
    ensures Compact([r], false) == ([r], LiveAfter(false, r))
  {
    assert [] + [r] == [r];
    TakeAllSnoc(Begin(false), [], r);
  }

  // ---- What a batch is written as, in its own fields ---------------------------

  /** The compactor's state after `rs`: its output merges them, its flag says whether the turn
      is live, and a run is open exactly while one may go on, with the last chunk's kind. */
  predicate Tracks(s: State, rs: seq<Record>, compactable: bool, cuts: seq<nat>) {
    && IsMerging(rs, compactable, Closed(s), cuts)
    && s.compactable == LiveAt(rs, |rs|, compactable)
    && (s.open.Some? <==> rs != [] && s.compactable && IsPlainChunk(rs[|rs| - 1]))
    && (s.open.Some? ==> Alike(EntryRecord(s.open.value), rs[|rs| - 1]))
  }

  lemma JoinsWhenJoined(s: State, rs: seq<Record>, x: Record, compactable: bool, cuts: seq<nat>)
    requires Tracks(s, rs, compactable, cuts)
    ensures JoinsOpenRun(s, x) <==> IsJoined(rs + [x], |rs|, compactable)
  {
    LivePrefix(rs, [x], |rs|, compactable);
  }

  lemma TakeJoinedTracks(s: State, rs: seq<Record>, x: Record, compactable: bool, cuts: seq<nat>)
    requires Tracks(s, rs, compactable, cuts) && JoinsOpenRun(s, x)
    ensures Tracks(Take(s, x), rs + [x], compactable, cuts[..|cuts| - 1] + [|rs| + 1])
  {
    JoinsWhenJoined(s, rs, x, compactable, cuts);
    LiveNext(rs, x, compactable);
    var open, folded := EntryRecord(s.open.value), EntryRecord(Fold(s.open.value, x.entry));
    assert Closed(s) == s.out + [open] && PieceStands(rs, Closed(s), cuts, |s.out|);
    var piece := rs[cuts[|s.out|]..];
    assert rs[cuts[|s.out|]..|rs|] == piece;
    StandsForMore(open, folded, piece, x);
    MergingJoins(rs, compactable, s.out, open, cuts, x, folded);
  }

  lemma TakeApartTracks(s: State, rs: seq<Record>, x: Record, compactable: bool, cuts: seq<nat>)
    requires Tracks(s, rs, compactable, cuts) && !JoinsOpenRun(s, x)
    ensures Tracks(Take(s, x), rs + [x], compactable, cuts + [|rs| + 1])
  {
    JoinsWhenJoined(s, rs, x, compactable, cuts);
    LiveNext(rs, x, compactable);
    MergingGrows(rs, compactable, Closed(s), cuts, x);
  }

  lemma {:induction false} CompactTracks(rs: seq<Record>, compactable: bool) returns (cuts: seq<nat>)
    ensures Tracks(TakeAll(Begin(compactable), rs), rs, compactable, cuts)
  {
    if rs == [] {
      cuts := [0];
    } else {
      var init, x := rs[..|rs| - 1], rs[|rs| - 1];
      assert rs == init + [x];
      cuts := CompactTracks(init, compactable);
      TakeAllSnoc(Begin(compactable), init, x);
      var s := TakeAll(Begin(compactable), init);
      if JoinsOpenRun(s, x) {
        TakeJoinedTracks(s, init, x, compactable, cuts);
        cuts := cuts[..|cuts| - 1] + [|rs|];
      } else {
        TakeApartTracks(s, init, x, compactable, cuts);
        cuts := cuts + [|rs|];
      }
    }
  }

  /** What a batch is written as, exactly: cut it wherever two neighbours are not, within a
      live turn, text chunks of one kind and one `_meta`; each piece of one record stands as it
      is, and each longer one as a chunk of that kind and `_meta`, with their texts in order
      and the last one's time. */
  lemma CompactIsMerging(rs: seq<Record>, compactable: bool) returns (cuts: seq<nat>)
    ensures IsMerging(rs, compactable, Compact(rs, compactable).0, cuts)
    ensures IsMergeOf(rs, compactable, Compact(rs, compactable).0, Compact(rs, compactable).1)
  {
    cuts := CompactTracks(rs, compactable);
  }

  // ---- One normal form, whatever the flush windows -------------------------

  /** Folding into the open run is associative: what a run was merged from does not show. */
  lemma TakeFolded(s: State, x: Entry, y: Entry)
    requires s.compactable && SameRun(x, y)
    ensures Take(s, EntryRecord(Fold(x, y))) == Take(Take(s, EntryRecord(x)), EntryRecord(y))
  {
    if JoinsOpenRun(s, EntryRecord(x)) {
      var o := s.open.value.update.content.text;
      var a, b := x.update.content.text, y.update.content.text;
      assert o + (a + b) == (o + a) + b;
    }
  }

  /** Compacting what a batch was already compacted to, after any other records, gives
      the same state as compacting the batch itself: nothing merged in one window is
      merged differently, or lost, for having been written first. */
  lemma {:induction false} Recompact(s: State, rs: seq<Record>)
    ensures var batch := TakeAll(Begin(s.compactable), rs);
            && TakeAll(s, Closed(batch)) == TakeAll(s, rs)
            && batch.compactable == TakeAll(s, rs).compactable
    decreases |rs|
  {
    if rs != [] {
      var init, r := rs[..|rs| - 1], rs[|rs| - 1];
      assert rs == init + [r];
      Recompact(s, init);
      var before := TakeAll(Begin(s.compactable), init);
      TakeAllSnoc(Begin(s.compactable), init, r);
      TakeAllSnoc(s, init, r);
      if JoinsOpenRun(before, r) {
        RecompactJoin(s, before, r.entry);
      } else {
        assert Closed(Take(before, r)) == Closed(before) + [r];
        TakeAllSnoc(s, Closed(before), r);
      }
    }
  }

  lemma RecompactJoin(s: State, before: State, y: Entry)
    requires JoinsOpenRun(before, EntryRecord(y))
    requires TakeAll(s, Closed(before)).compactable == before.compactable
    ensures TakeAll(s, Closed(Take(before, EntryRecord(y)))) == Take(TakeAll(s, Closed(before)), EntryRecord(y))
  {
    var x := before.open.value;
    TakeAllSnoc(s, before.out, EntryRecord(x));
    TakeAllSnoc(s, before.out, EntryRecord(Fold(x, y)));
    TakeFolded(TakeAll(s, before.out), x, y);
  }

  /** What a run of flush windows leaves in the file, each compacted on its own. */
  function Windows(batches: seq<seq<Record>>, compactable: bool): (seq<Record>, bool)
    decreases |batches|
  {
    if batches == [] then ([], compactable)
    else
      var (out, live) := Compact(batches[0], compactable);
      var (rest, end) := Windows(batches[1..], live);
      (out + rest, end)
  }

  function Concat<T>(batches: seq<seq<T>>): (all: seq<T>)
  {
    if batches == [] then [] else batches[0] + Concat(batches[1..])
  }

  lemma {:induction false} WindowsTake(s: State, batches: seq<seq<Record>>)
    ensures TakeAll(s, Windows(batches, s.compactable).0) == TakeAll(s, Concat(batches))
    ensures Windows(batches, s.compactable).1 == TakeAll(s, Concat(batches)).compactable
    decreases |batches|
  {
    if batches != [] {
      var (out, live) := Compact(batches[0], s.compactable);
      var after := TakeAll(s, batches[0]);
      Recompact(s, batches[0]);
      WindowsTake(after, batches[1..]);
      TakeAllAppend(s, out, Windows(batches[1..], live).0);
      TakeAllAppend(s, batches[0], Concat(batches[1..]));
    }
  }

  /** However a run of records is cut into flush windows, the file has one normal form
      (compacting it gives what one window over the whole run would have written) and
      the writer ends in the same state. */
  lemma WindowsHaveOneNormalForm(batches: seq<seq<Record>>, compactable: bool)
    ensures Compact(Windows(batches, compactable).0, compactable) == Compact(Concat(batches), compactable)
    ensures Windows(batches, compactable).1 == Compact(Concat(batches), compactable).1
  {
    WindowsTake(Begin(compactable), batches);
  }

  /** Re-compacting a written batch together with what follows it is compacting both. */
  lemma RecompactPrefix(a: seq<Record>, b: seq<Record>, compactable: bool)
    ensures Compact(Compact(a, compactable).0 + b, compactable) == Compact(a + b, compactable)
    ensures Compact(Compact(a, compactable).0, compactable) == Compact(a, compactable)
  {
    var s := Begin(compactable);
    Recompact(s, a);
    TakeAllAppend(s, Compact(a, compactable).0, b);
    TakeAllAppend(s, a, b);
  }

  lemma {:induction false} TakeAllShrinks(s: State, rs: seq<Record>)
    ensures |Closed(TakeAll(s, rs))| <= |Closed(s)| + |rs|
    decreases |rs|
  {
    if rs != [] { TakeAllShrinks(Take(s, rs[0]), rs[1..]); }
  }

  /** Merging is complete: inside a live turn, what a batch is written as has no two
      neighbours that could still share a record. */
  lemma MergesFully(rs: seq<Record>, compactable: bool, i: nat)
    requires 0 < i < |Compact(rs, compactable).0|
    requires Compact(rs, compactable).0[i - 1].EntryRecord? && Compact(rs, compactable).0[i].EntryRecord?
    ensures var out := Compact(rs, compactable).0;
            TakeAll(Begin(compactable), out[..i]).compactable ==> !SameRun(out[i - 1].entry, out[i].entry)
  {
    var out := Compact(rs, compactable).0;
    var before := TakeAll(Begin(compactable), out[..i]);
    if before.compactable && SameRun(out[i - 1].entry, out[i].entry) {
      assert out[..i] == out[..i - 1] + [out[i - 1]] && out == out[..i] + [out[i]] + out[i + 1..];
      TakeAllSnoc(Begin(compactable), out[..i - 1], out[i - 1]);
      assert JoinsOpenRun(before, out[i]);
      TakeAllSnoc(Begin(compactable), out[..i], out[i]);
      TakeAllAppend(Begin(compactable), out[..i] + [out[i]], out[i + 1..]);
      TakeAllShrinks(Begin(compactable), out[..i]);
      TakeAllShrinks(Take(before, out[i]), out[i + 1..]);
      RecompactPrefix(rs, [], compactable);
    }
  }

  // ---- Merging is invisible to the reader ----------------------------------

  /** A turn is under way for the reader: its start is already fixed. */
  predicate InTurn(r: Reader) {
    r.pending.Some? || r.startHint.Some?
  }

  lemma PushTextTwice(p: Pending, a: string, b: string, thinking: bool)
    ensures PushText(PushText(p, a, thinking), b, thinking) == PushText(p, a + b, thinking)
  {
    if a == [] {
      assert a + b == b;
    } else if b == [] {
      assert a + b == a;
    } else {
      var blocks := p.cards.blocks;
      var last := |blocks| - 1;
      var once := PushText(p, a, thinking).cards.blocks;
      if last >= 0 && (if thinking then blocks[last].Thinking? else blocks[last].Text?) {
        assert (blocks[last].text + a) + b == blocks[last].text + (a + b);
        assert once[last := PushText(p, a + b, thinking).cards.blocks[last]] == PushText(p, a + b, thinking).cards.blocks;
      } else {
        assert once == blocks + [if thinking then Thinking(a) else Text(a)];
        assert once[|blocks| := PushText(p, a + b, thinking).cards.blocks[|blocks|]]
            == PushText(p, a + b, thinking).cards.blocks;
      }
    }
  }

  lemma OpenTurnTwice(r: Reader, a: nat, b: nat)
    requires InTurn(r) || a == b
    ensures OpenTurn(OpenTurn(r, a), b) == OpenTurn(r, b)
  {}

  /** Reading a merged pair is reading the two chunks, exactly when a turn is already
      under way or the two carry one timestamp: a turn that a chunk starts takes its
      start from that chunk, and a merged record only has the last timestamp. */
  lemma MergeIsInvisibleIff(r: Reader, a: Entry, b: Entry)
    requires SameRun(a, b)
    ensures Step(r, Fold(a, b)) == Step(Step(r, a), b) <==> InTurn(r) || a.t == b.t
  {
    var c := CloseProse(r);
    var first := OnAgentChunk(c, a.t, a.update.kind, a.update.content);
    TrimOpenProseIdempotent(r.turns);
    assert CloseProse(first) == first;
    ChunkTwice(c, a, b);
  }

  lemma ChunkTwice(c: Reader, a: Entry, b: Entry)
    requires SameRun(a, b)
    ensures OnAgentChunk(c, b.t, a.update.kind, Fold(a, b).update.content)
         == OnAgentChunk(OnAgentChunk(c, a.t, a.update.kind, a.update.content), b.t, b.update.kind, b.update.content)
       <==> InTurn(c) || a.t == b.t
  {
    var thinking := a.update.kind.Thought?;
    var o := OpenTurn(c, a.t);
    PushTextTwice(OpenTurn(o, b.t).pending.value, a.update.content.text, b.update.content.text, thinking);
    PushTextLater(o, b.t, a.update.content.text, thinking);
    if InTurn(c) || a.t == b.t {
      OpenTurnTwice(c, a.t, b.t);
    } else {
      assert OpenTurn(o, b.t).pending.value.startedAt == a.t;
      assert OpenTurn(c, b.t).pending.value.startedAt == b.t;
      PushTextKeepsStart(OpenTurn(o, b.t).pending.value, a.update.content.text + b.update.content.text, thinking);
      PushTextKeepsStart(OpenTurn(c, b.t).pending.value, a.update.content.text + b.update.content.text, thinking);
    }
  }

  lemma PushTextKeepsStart(p: Pending, text: string, thinking: bool)
    ensures PushText(p, text, thinking).startedAt == p.startedAt
  {}

  /** Extending an open turn in time commutes with pushing text into it. */
  lemma PushTextLater(o: Reader, at: nat, text: string, thinking: bool)
    requires o.pending.Some? && !o.promptJustRecorded
    ensures OpenTurn(o.(pending := Some(PushText(o.pending.value, text, thinking))), at)
         == OpenTurn(o, at).(pending := Some(PushText(OpenTurn(o, at).pending.value, text, thinking)))
  {}

  lemma UserChunkInTurn(r: Reader, at: nat, isText: bool, visible: Option<Block>)
    requires InTurn(r)
    ensures InTurn(OnUserChunk(r, at, isText, visible))
  {}

  /** Nothing but a turn end takes the reader out of a turn. */
  lemma StepInTurn(r: Reader, e: Entry)
    ensures e.Prompt? ==> InTurn(Step(r, e))
    ensures e.Updated? && InTurn(r) ==> InTurn(Step(r, e))
    ensures e.TurnEnd? ==> !InTurn(Step(r, e))
  {
    if e.Updated? && InTurn(r) {
      var c := if e.update.UserChunk? && e.update.wireText then r else CloseProse(r);
      assert InTurn(c);
      match e.update
      case UserChunk(isText, visible) => UserChunkInTurn(c, e.t, isText, visible);
      case ToolCallUpdate(id, f) => UpdateInTurn(c, e.t, id, f);
      case _ =>
    }
  }

  lemma UpdateInTurn(r: Reader, at: nat, id: string, f: CallFields)
    requires InTurn(r)
    ensures InTurn(OnToolCallUpdate(r, at, id, f))
  {}

  lemma ReadSnoc(r: Reader, es: seq<Record>, x: Record)
    ensures Read(r, EntriesOf(es + [x]))
         == if x.EntryRecord? then Step(Read(r, EntriesOf(es)), x.entry) else Read(r, EntriesOf(es))
  {
    EntriesOfAppend(es, [x]);
    assert [x][1..] == [];
    assert EntriesOf([x]) == if x.EntryRecord? then [x.entry] else [];
    ReadAppend(Read(r, EntriesOf(es)), [], []);
    ReadAppend(r, EntriesOf(es), EntriesOf([x]));
  }

  /** What the compactor has done so far reads as the records themselves. */
  ghost predicate Faithful(r: Reader, s: State, rs: seq<Record>) {
    && Read(r, EntriesOf(Closed(s))) == Read(r, EntriesOf(rs))
    && (s.compactable ==> InTurn(Read(r, EntriesOf(rs))))
    && (s.open.Some? ==> s.compactable && Mergeable(s.open.value) && InTurn(Read(r, EntriesOf(s.out))))
  }

  lemma TakeFaithful(r: Reader, s: State, rs: seq<Record>, x: Record)
    requires Faithful(r, s, rs)
    ensures Faithful(r, Take(s, x), rs + [x])
  {
    ReadSnoc(r, rs, x);
    if JoinsOpenRun(s, x) {
      ReadSnoc(r, s.out, EntryRecord(s.open.value));
      ReadSnoc(r, s.out, EntryRecord(Fold(s.open.value, x.entry)));
      MergeIsInvisibleIff(Read(r, EntriesOf(s.out)), s.open.value, x.entry);
    } else {
      assert Closed(Take(s, x)) == Closed(s) + [x];
      ReadSnoc(r, Closed(s), x);
    }
    if x.EntryRecord? { StepInTurn(Read(r, EntriesOf(rs)), x.entry); }
  }

  lemma {:induction false} TakeAllFaithful(r: Reader, compactable: bool, rs: seq<Record>)
    requires compactable ==> InTurn(r)
    ensures Faithful(r, TakeAll(Begin(compactable), rs), rs)
    decreases |rs|
  {
    if rs != [] {
      var init, x := rs[..|rs| - 1], rs[|rs| - 1];
      assert rs == init + [x];
      TakeAllFaithful(r, compactable, init);
      TakeAllSnoc(Begin(compactable), init, x);
      TakeFaithful(r, TakeAll(Begin(compactable), init), init, x);
    }
  }

  /** Writing a batch compacted rather than verbatim leaves the reader in the very same
      state, and the writer's "turn is live" never runs ahead of the reader's. */
  lemma CompactionIsInvisible(r: Reader, rs: seq<Record>, compactable: bool)
    requires compactable ==> InTurn(r)
    ensures Read(r, EntriesOf(Compact(rs, compactable).0)) == Read(r, EntriesOf(rs))
    ensures Compact(rs, compactable).1 ==> InTurn(Read(r, EntriesOf(rs)))
  {
    TakeAllFaithful(r, compactable, rs);
  }

  lemma {:induction false} PrefixOfState(s: State, rs: seq<Record>, m: nat) returns (k: nat)
    requires m <= |Closed(TakeAll(s, rs))| && Closed(s) == []
    ensures k <= |rs| && Closed(TakeAll(s, rs[..k])) == Closed(TakeAll(s, rs))[..m]
    decreases |rs|
  {
    if rs == [] || m == |Closed(TakeAll(s, rs))| {
      k := |rs|;
      assert rs[..k] == rs;
    } else {
      var init, x := rs[..|rs| - 1], rs[|rs| - 1];
      assert rs == init + [x];
      TakeAllSnoc(s, init, x);
      var before := TakeAll(s, init);
      assert Closed(before) == [] || m <= |Closed(before)|;
      assert Closed(Take(before, x))[..m] == Closed(before)[..m];
      k := PrefixOfState(s, init, m);
      assert rs[..k] == init[..k];
    }
  }

  /** The first lines of a compacted batch read, for any reader the writer is in step with, as
      some first records of the batch: a write cut short loses an end, never a middle. */
  lemma CutReadsAsPrefix(r: Reader, rs: seq<Record>, compactable: bool, m: nat) returns (k: nat)
    requires (compactable ==> InTurn(r)) && m <= |Compact(rs, compactable).0|
    ensures k <= |rs|
    ensures Read(r, EntriesOf(Compact(rs, compactable).0[..m])) == Read(r, EntriesOf(rs[..k]))
  {
    k := PrefixOfState(Begin(compactable), rs, m);
    CompactionIsInvisible(r, rs[..k], compactable);
  }

  lemma {:induction false} WindowsRead(r: Reader, batches: seq<seq<Record>>, compactable: bool)
    requires compactable ==> InTurn(r)
    ensures Read(r, EntriesOf(Windows(batches, compactable).0)) == Read(r, EntriesOf(Concat(batches)))
    decreases |batches|
  {
    if batches != [] {
      var (out, live) := Compact(batches[0], compactable);
      CompactionIsInvisible(r, batches[0], compactable);
      WindowsRead(Read(r, EntriesOf(out)), batches[1..], live);
      EntriesOfAppend(out, Windows(batches[1..], live).0);
      ReadAppend(r, EntriesOf(out), EntriesOf(Windows(batches[1..], live).0));
      EntriesOfAppend(batches[0], Concat(batches[1..]));
      ReadAppend(r, EntriesOf(batches[0]), EntriesOf(Concat(batches[1..])));
    }
  }

  /** The module's theorem: for every record sequence and every flush schedule, the turns
      of the compacted file are the turns of the verbatim records. */
  lemma MergingPreservesMeaning(batches: seq<seq<Record>>)
    ensures Project(EntriesOf(Windows(batches, false).0)) == Project(EntriesOf(Concat(batches)))
  {
    WindowsRead(START, batches, false);
  }
}
