/** Linked transcripts: a session that continues another reads as one conversation with
    it, and the continued one is hidden from the listing. */
module Chains {
  import opened Records

  type Id = string

  datatype Transcript = Transcript(header: Option<Header>, entries: seq<Entry>)

  const MAX_DEPTH := 512

  /** Usable as a file name on its own. */
  predicate SafeComponent(s: Id) {
    && s != [] && |s| <= 128
    && (forall c <- s :: 'a' <= c <= 'z' || 'A' <= c <= 'Z' || '0' <= c <= '9' || c in "-_.")
    && s[0] != '.'
  }

  /** A missing file, or an id that names none, reads as an empty transcript. */
  function Load(files: map<Id, Transcript>, id: Id): Transcript {
    if SafeComponent(id) && id in files then files[id] else Transcript(None, [])
  }

  function Link(files: map<Id, Transcript>, id: Id): Option<Id> {
    match Load(files, id).header
    case Some(h) => h.continuesFrom
    case None => None
  }

  /** The ids a walk visits: it stops at the end of the links, at an id already visited,
      or when it has no room left. */
  function Walk(files: map<Id, Transcript>, cursor: Option<Id>, visited: set<Id>, room: nat): (ids: seq<Id>)
    ensures |ids| <= room
    decreases room
  {
    if cursor.None? || cursor.value in visited || room == 0 then []
    else [cursor.value] + Walk(files, Link(files, cursor.value), visited + {cursor.value}, room - 1)
  }

  /** The links ran out: the walk met neither a cycle nor its depth bound. */
  predicate RunsOut(files: map<Id, Transcript>, cursor: Option<Id>, visited: set<Id>, room: nat)
    decreases room
  {
    cursor.None? || (cursor.value !in visited && room > 0
      && RunsOut(files, Link(files, cursor.value), visited + {cursor.value}, room - 1))
  }

  /** The ids `read_chain_in` reads, newest first. */
  function ChainIds(files: map<Id, Transcript>, id: Id): seq<Id> {
    Walk(files, Some(id), {}, MAX_DEPTH)
  }

  /** The ids `continuation_ancestors_in` answers, newest first. */
  function AncestorIds(files: map<Id, Transcript>, id: Id): seq<Id> {
    Walk(files, Link(files, id), {id}, MAX_DEPTH)
  }

  /** The links' entries, oldest link first. */
  function EntriesOldestFirst(files: map<Id, Transcript>, ids: seq<Id>): (es: seq<Entry>)
  {
    if ids == [] then [] else EntriesOldestFirst(files, ids[1..]) + Load(files, ids[0]).entries
  }

  /** How many entries the links hold together. */
  function EntryCount(files: map<Id, Transcript>, ids: seq<Id>): (n: nat)
  {
    if ids == [] then 0 else |Load(files, ids[0]).entries| + EntryCount(files, ids[1..])
  }

  /** Where a link's entries stand in the merged conversation: after those of every link older
      than it, in their own order; and nothing else is in it. */
  lemma {:induction false} EntriesByPosition(files: map<Id, Transcript>, ids: seq<Id>, i: nat, j: nat)
    requires i < |ids| && j < |Load(files, ids[i]).entries|
    ensures var at := EntryCount(files, ids[i + 1..]) + j;
            && |EntriesOldestFirst(files, ids)| == EntryCount(files, ids)
            && at < |EntriesOldestFirst(files, ids)|
            && EntriesOldestFirst(files, ids)[at] == Load(files, ids[i]).entries[j]
  {
    EntriesCounted(files, ids);
    EntriesCounted(files, ids[1..]);
    if i > 0 {
      EntriesByPosition(files, ids[1..], i - 1, j);
      assert ids[1..][i..] == ids[i + 1..];
    }
  }

  /** An id that is not the name of a file in its own directory reads as an empty conversation,
      whatever is stored, and continues nothing. */
  lemma EscapingIdReadsEmpty(files: map<Id, Transcript>, id: Id)
    requires id == [] || |id| > 128 || id[0] == '.' || '/' in id || '\\' in id
    ensures ChainIds(files, id) == [id] && EntriesOldestFirst(files, ChainIds(files, id)) == []
    ensures OldestHeader(files, ChainIds(files, id)).None? && AncestorIds(files, id) == []
  {
    if '/' in id { assert '/' in id && !SafeComponent(id); }
    assert Walk(files, None, {id}, MAX_DEPTH - 1) == [];
    assert [id][1..] == [];
  }

  lemma {:induction false} EntriesCounted(files: map<Id, Transcript>, ids: seq<Id>)
    ensures |EntriesOldestFirst(files, ids)| == EntryCount(files, ids)
  {
    if ids != [] { EntriesCounted(files, ids[1..]); }
  }

  /** The header of the oldest link that has one. */
  function OldestHeader(files: map<Id, Transcript>, ids: seq<Id>): (h: Option<Header>)
  {
    if ids == [] then None
    else
      var older := OldestHeader(files, ids[1..]);
      if older.Some? then older else Load(files, ids[0]).header
  }

  function LoadAll(files: map<Id, Transcript>, ids: seq<Id>): (ts: seq<Transcript>)
    ensures |ts| == |ids|
  {
    seq(|ids|, i requires 0 <= i < |ids| => Load(files, ids[i]))
  }

  lemma LoadOneMore(files: map<Id, Transcript>, ids: seq<Id>, id: Id)
    ensures LoadAll(files, ids + [id]) == LoadAll(files, ids) + [Load(files, id)]
  {}

  lemma WalkOneMore(files: map<Id, Transcript>, ids: seq<Id>, id: Id, visited: set<Id>, room: nat)
    requires id !in visited && room > 0
    ensures ids + Walk(files, Some(id), visited, room)
         == (ids + [id]) + Walk(files, Link(files, id), visited + {id}, room - 1)
  {}

  /** `ids` have been walked from `start`, and the walk goes on at `cursor`. */
  predicate WalkedTo(files: map<Id, Transcript>, start: Id, ids: seq<Id>, cursor: Option<Id>, visited: set<Id>) {
    |ids| <= MAX_DEPTH && ids + Walk(files, cursor, visited, MAX_DEPTH - |ids|) == ChainIds(files, start)
  }

  lemma WalkedOneMore(files: map<Id, Transcript>, start: Id, ids: seq<Id>, id: Id, visited: set<Id>)
    requires WalkedTo(files, start, ids, Some(id), visited) && id !in visited && |ids| < MAX_DEPTH
    ensures WalkedTo(files, start, ids + [id], Link(files, id), visited + {id})
    ensures LoadAll(files, ids + [id]) == LoadAll(files, ids) + [Load(files, id)]
  {
    LoadOneMore(files, ids, id);
    WalkOneMore(files, ids, id, visited, MAX_DEPTH - |ids|);
  }

  /** The walk of `read_chain_in`, newest first. */
  method CollectChain(files: map<Id, Transcript>, sessionId: Id) returns (chain: seq<Transcript>)
    ensures chain == LoadAll(files, ChainIds(files, sessionId))
  {
    chain := [];
    ghost var ids: seq<Id> := [];
    var visited: set<Id> := {};
    var cursor: Option<Id> := Some(sessionId);
    while cursor.Some?
      invariant chain == LoadAll(files, ids) && WalkedTo(files, sessionId, ids, cursor, visited)
      decreases cursor.Some?, MAX_DEPTH - |chain|
    {
      var id := cursor.value;
      if id in visited || |chain| >= MAX_DEPTH { break; }
      WalkedOneMore(files, sessionId, ids, id, visited);
      visited := visited + {id};
      var transcript := Load(files, id);
      cursor := match transcript.header case Some(h) => h.continuesFrom case None => None;
      chain := chain + [transcript];
      ids := ids + [id];
    }
    assert ids == ChainIds(files, sessionId);
  }

  method ReadChain(files: map<Id, Transcript>, sessionId: Id) returns (merged: Transcript)
    ensures merged.entries == EntriesOldestFirst(files, ChainIds(files, sessionId))
    ensures merged.header == OldestHeader(files, ChainIds(files, sessionId))
  {
    var chain := CollectChain(files, sessionId);
    ghost var ids := ChainIds(files, sessionId);
    merged := Transcript(None, []);
    for k := |chain| downto 0
      invariant merged.entries == EntriesOldestFirst(files, ids[k..])
      invariant merged.header == OldestHeader(files, ids[k..])
    {
      assert ids[k..][1..] == ids[k + 1..];
      if merged.header.None? { merged := merged.(header := chain[k].header); }
      merged := merged.(entries := merged.entries + chain[k].entries);
    }
  }

  method ContinuationAncestors(files: map<Id, Transcript>, sessionId: Id) returns (out: seq<Id>)
    ensures out == AncestorIds(files, sessionId)
  {
    out := [];
    var visited := {sessionId};
    var cursor := Link(files, sessionId);
    while cursor.Some?
      invariant |out| <= MAX_DEPTH
      invariant out + Walk(files, cursor, visited, MAX_DEPTH - |out|) == AncestorIds(files, sessionId)
      decreases cursor.Some?, MAX_DEPTH - |out|
    {
      var id := cursor.value;
      if id in visited || |out| >= MAX_DEPTH { break; }
      visited := visited + {id};
      cursor := Link(files, id);
      assert out + ([id] + Walk(files, cursor, visited, MAX_DEPTH - |out| - 1))
          == (out + [id]) + Walk(files, cursor, visited, MAX_DEPTH - |out| - 1);
      out := out + [id];
    }
  }

  // ---- Walks -----------------------------------------------------------------

  /** On any link graph, cyclic or not, a walk visits no id twice. */
  lemma {:induction false} WalkVisitsOnce(files: map<Id, Transcript>, cursor: Option<Id>, visited: set<Id>, room: nat)
    ensures forall id <- Walk(files, cursor, visited, room) :: id !in visited
    ensures forall i, j :: 0 <= i < j < |Walk(files, cursor, visited, room)| ==>
              Walk(files, cursor, visited, room)[i] != Walk(files, cursor, visited, room)[j]
    decreases room
  {
    if cursor.Some? && cursor.value !in visited && room > 0 {
      WalkVisitsOnce(files, Link(files, cursor.value), visited + {cursor.value}, room - 1);
    }
  }

  /** A walk goes from each id to the one it continues. */
  lemma {:induction false} WalkFollowsLinks(files: map<Id, Transcript>, cursor: Option<Id>, visited: set<Id>,
                                            room: nat, i: nat)
    requires i < |Walk(files, cursor, visited, room)|
    ensures var ids := Walk(files, cursor, visited, room);
            Some(ids[i]) == if i == 0 then cursor else Link(files, ids[i - 1])
    decreases room
  {
    if i > 0 { WalkFollowsLinks(files, Link(files, cursor.value), visited + {cursor.value}, room - 1, i - 1); }
  }

  /** One more id of room only ever adds one more id. */
  lemma {:induction false} WalkWithLessRoom(files: map<Id, Transcript>, cursor: Option<Id>, visited: set<Id>, room: nat)
    ensures var ids := Walk(files, cursor, visited, room + 1);
            Walk(files, cursor, visited, room) == if |ids| <= room then ids else ids[..room]
    decreases room
  {
    if cursor.Some? && cursor.value !in visited && room > 0 {
      WalkWithLessRoom(files, Link(files, cursor.value), visited + {cursor.value}, room - 1);
    }
  }

  /** Both walks agree: the ids the reader merges after the first are the ancestors, all
      of them exactly when they stay under the depth bound, and all but the last at it. */
  lemma ChainIsAncestors(files: map<Id, Transcript>, id: Id)
    ensures ChainIds(files, id) != [] && ChainIds(files, id)[0] == id
    ensures ChainIds(files, id)[1..] <= AncestorIds(files, id)
    ensures ChainIds(files, id)[1..] == AncestorIds(files, id) <==> |AncestorIds(files, id)| < MAX_DEPTH
    ensures |AncestorIds(files, id)| <= |ChainIds(files, id)|
  {
    WalkWithLessRoom(files, Link(files, id), {id}, MAX_DEPTH - 1);
    assert {} + {id} == {id};
    assert ChainIds(files, id) == [id] + Walk(files, Link(files, id), {id}, MAX_DEPTH - 1);
  }

  lemma {:induction false} OldestHeaderIsLast(files: map<Id, Transcript>, ids: seq<Id>)
    ensures OldestHeader(files, ids).None? <==> forall id <- ids :: Load(files, id).header.None?
    ensures OldestHeader(files, ids).Some? ==>
              exists k :: 0 <= k < |ids| && OldestHeader(files, ids) == Load(files, ids[k]).header
                          && forall j :: k < j < |ids| ==> Load(files, ids[j]).header.None?
  {
    if ids != [] {
      OldestHeaderIsLast(files, ids[1..]);
      if OldestHeader(files, ids[1..]).Some? {
        var k :| 0 <= k < |ids[1..]| && OldestHeader(files, ids[1..]) == Load(files, ids[1..][k]).header
                 && forall j :: k < j < |ids[1..]| ==> Load(files, ids[1..][j]).header.None?;
        assert ids[k + 1] == ids[1..][k];
        assert forall j :: k + 1 < j < |ids| ==> ids[j] == ids[1..][j - 1];
      } else {
        assert forall j :: 0 < j < |ids| ==> ids[j] == ids[1..][j - 1] && ids[j] in ids[1..];
      }
    }
  }

  // ---- Hiding superseded transcripts -------------------------------------------

  function SupersededIds(files: map<Id, Transcript>): set<Id> {
    set id <- files | Link(files, id).Some? :: Link(files, id).value
  }

  /** A walk that runs out does so from anywhere along it, and with room to spare. */
  lemma {:induction false} RunsOutAnyway(files: map<Id, Transcript>, cursor: Option<Id>, visited: set<Id>, room: nat,
                                         fewer: set<Id>, more: nat)
    requires RunsOut(files, cursor, visited, room) && fewer <= visited && room <= more
    ensures Walk(files, cursor, fewer, more) == Walk(files, cursor, visited, room)
    decreases room
  {
    if cursor.Some? {
      var id := cursor.value;
      RunsOutAnyway(files, Link(files, id), visited + {id}, room - 1, fewer + {id}, more - 1);
    }
  }

  /** In a walk that runs out, every id is followed by the one it continues. */
  lemma {:induction false} RunsOutReachesLink(files: map<Id, Transcript>, cursor: Option<Id>, visited: set<Id>, room: nat,
                                              id: Id)
    requires RunsOut(files, cursor, visited, room) && id in Walk(files, cursor, visited, room)
    requires Link(files, id).Some?
    ensures Link(files, id).value in Walk(files, cursor, visited, room)
    decreases room
  {
    var next := Link(files, cursor.value);
    var rest := Walk(files, next, visited + {cursor.value}, room - 1);
    assert Walk(files, cursor, visited, room) == [cursor.value] + rest;
    if id == cursor.value {
      assert rest[0] == next.value;
    } else {
      RunsOutReachesLink(files, next, visited + {cursor.value}, room - 1, id);
    }
  }

  lemma ContinuedChain(files: map<Id, Transcript>, x: Id, y: Id)
    requires Link(files, y) == Some(x) && RunsOut(files, Some(y), {}, MAX_DEPTH)
    ensures ChainIds(files, y) == [y] + ChainIds(files, x)
  {
    assert {} + {y} == {y};
    RunsOutAnyway(files, Some(x), {y}, MAX_DEPTH - 1, {}, MAX_DEPTH);
  }

  /** Hiding what another transcript continues loses nothing: when every stored session's
      links run out (no cycle, within the depth bound), every stored session is on the
      chain of a stored session that is listed. */
  lemma {:induction false} HidingLosesNothing(files: map<Id, Transcript>, x: Id) returns (listed: Id)
    requires forall id <- files :: RunsOut(files, Some(id), {}, MAX_DEPTH)
    requires x in files
    ensures listed in files && listed !in SupersededIds(files)
    ensures x in ChainIds(files, listed)
    decreases MAX_DEPTH - |ChainIds(files, x)|
  {
    ChainIsAncestors(files, x);
    if x !in SupersededIds(files) {
      listed := x;
    } else {
      var y :| y in files && Link(files, y) == Some(x);
      ContinuedChain(files, x, y);
      listed := HidingLosesNothing(files, y);
      RunsOutReachesLink(files, Some(listed), {}, MAX_DEPTH, y);
    }
  }

  /** Without that condition it can lose everything: two sessions that continue each
      other hide each other. */
  lemma CycleHidesBoth(h: Header, a: Id, b: Id)
    requires SafeComponent(a) && SafeComponent(b) && a != b
    ensures var files := map[a := Transcript(Some(h.(continuesFrom := Some(b))), []),
                             b := Transcript(Some(h.(continuesFrom := Some(a))), [])];
            SupersededIds(files) == {a, b} && files.Keys == {a, b}
  {
    var files := map[a := Transcript(Some(h.(continuesFrom := Some(b))), []),
                     b := Transcript(Some(h.(continuesFrom := Some(a))), [])];
    assert Link(files, a) == Some(b) && Link(files, b) == Some(a);
  }
}
