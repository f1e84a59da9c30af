/** When hiding what another transcript continues loses nothing: exactly, cycles included,
    and what the depth bound can cost. */
module Supersession {
  import opened Records
  import opened Chains

  /** Some listed session's chain shows it. */
  ghost predicate IsShown(files: map<Id, Transcript>, x: Id) {
    exists y :: y in files && y !in SupersededIds(files) && x in ChainIds(files, y)
  }

  /** No chain is long enough for the depth bound to cut it. */
  ghost predicate Uncut(files: map<Id, Transcript>) {
    forall v :: |ChainIds(files, v)| < MAX_DEPTH
  }

  /** Following links from `x` comes back to it. */
  ghost predicate OnCycle(files: map<Id, Transcript>, x: Id) {
    exists z <- ChainIds(files, x) :: Link(files, z) == Some(x)
  }

  /** A session off the cycle of `x` that continues one on it. */
  ghost predicate Enters(files: map<Id, Transcript>, z: Id, x: Id) {
    && z in files && z !in ChainIds(files, x)
    && Link(files, z).Some? && Link(files, z).value in ChainIds(files, x)
  }

  ghost predicate EveryCycleIsEntered(files: map<Id, Transcript>) {
    forall x :: x in files && OnCycle(files, x) ==> exists z :: Enters(files, z, x)
  }

  lemma LinkedIsStored(files: map<Id, Transcript>, z: Id)
    requires Link(files, z).Some?
    ensures z in files && Link(files, z).value in SupersededIds(files)
  {
  }

  /** An id that a walk never meets might as well have been visited. */
  lemma {:induction false} UnmetIsNoMatter(files: map<Id, Transcript>, cursor: Option<Id>, visited: set<Id>, room: nat,
                                           z: Id)
    requires z !in Walk(files, cursor, visited, room)
    ensures Walk(files, cursor, visited + {z}, room) == Walk(files, cursor, visited, room)
    decreases room
  {
    if cursor.Some? && cursor.value !in visited && room > 0 {
      var id := cursor.value;
      assert Walk(files, cursor, visited, room)[0] == id;
      UnmetIsNoMatter(files, Link(files, id), visited + {id}, room - 1, z);
      assert visited + {id} + {z} == visited + {z} + {id};
    }
  }

  /** A walk with room to spare is closed under links, up to what it was told to avoid. */
  lemma {:induction false} WalkIsClosed(files: map<Id, Transcript>, cursor: Option<Id>, visited: set<Id>, room: nat, id: Id)
    requires |Walk(files, cursor, visited, room)| < room && id in Walk(files, cursor, visited, room)
    requires Link(files, id).Some?
    ensures Link(files, id).value in visited || Link(files, id).value in Walk(files, cursor, visited, room)
    decreases room
  {
    var first, next := cursor.value, Link(files, cursor.value);
    var rest := Walk(files, next, visited + {first}, room - 1);
    assert Walk(files, cursor, visited, room) == [first] + rest;
    if id == first {
      if next.value !in visited + {first} { assert rest[0] == next.value; }
    } else {
      WalkIsClosed(files, next, visited + {first}, room - 1, id);
    }
  }

  lemma ChainIsClosed(files: map<Id, Transcript>, y: Id, id: Id)
    requires Uncut(files) && id in ChainIds(files, y) && Link(files, id).Some?
    ensures Link(files, id).value in ChainIds(files, y)
  {
    WalkIsClosed(files, Some(y), {}, MAX_DEPTH, id);
  }

  /** A walk stays in a set that links do not leave. */
  lemma {:induction false} WalkStaysIn(files: map<Id, Transcript>, cursor: Option<Id>, visited: set<Id>, room: nat,
                                       inside: set<Id>, id: Id)
    requires cursor.Some? ==> cursor.value in inside
    requires forall v <- inside :: Link(files, v).Some? ==> Link(files, v).value in inside
    requires id in Walk(files, cursor, visited, room)
    ensures id in inside
    decreases room
  {
    if id != cursor.value {
      WalkStaysIn(files, Link(files, cursor.value), visited + {cursor.value}, room - 1, inside, id);
    }
  }

  ghost function IdSet(files: map<Id, Transcript>, y: Id): set<Id> {
    set id | id in ChainIds(files, y)
  }

  lemma ChainStaysIn(files: map<Id, Transcript>, y: Id, c: Id, id: Id)
    requires Uncut(files) && c in ChainIds(files, y) && id in ChainIds(files, c)
    ensures id in ChainIds(files, y)
  {
    forall v | v in IdSet(files, y) && Link(files, v).Some? ensures Link(files, v).value in IdSet(files, y) {
      ChainIsClosed(files, y, v);
    }
    WalkStaysIn(files, Some(c), {}, MAX_DEPTH, IdSet(files, y), id);
  }

  /** Links lead from each id of a chain to every later one. */
  lemma {:induction false} LaterIsReached(files: map<Id, Transcript>, y: Id, c: Id, i: nat, j: nat)
    requires Uncut(files) && i <= j < |ChainIds(files, y)| && ChainIds(files, y)[i] in ChainIds(files, c)
    ensures ChainIds(files, y)[j] in ChainIds(files, c)
    decreases j - i
  {
    if i < j {
      WalkFollowsLinks(files, Some(y), {}, MAX_DEPTH, i + 1);
      ChainIsClosed(files, c, ChainIds(files, y)[i]);
      LaterIsReached(files, y, c, i + 1, j);
    }
  }

  lemma OnlyTheLastLinksBack(files: map<Id, Transcript>, y: Id, k: nat)
    requires k + 1 < |ChainIds(files, y)|
    ensures Link(files, ChainIds(files, y)[k]) != Some(ChainIds(files, y)[0])
  {
    WalkFollowsLinks(files, Some(y), {}, MAX_DEPTH, k + 1);
    WalkVisitsOnce(files, Some(y), {}, MAX_DEPTH);
  }

  lemma CycleComesRound(files: map<Id, Transcript>, y: Id, c: Id)
    requires Uncut(files)
    ensures OnCycle(files, y) && c in ChainIds(files, y) ==> y in ChainIds(files, c)
  {
    if OnCycle(files, y) && c in ChainIds(files, y) {
      var ids := ChainIds(files, y);
      ChainIsAncestors(files, c);
      ChainIsAncestors(files, y);
      var z :| z in ids && Link(files, z) == Some(y);
      var i :| 0 <= i < |ids| && ids[i] == c;
      var k :| 0 <= k < |ids| && ids[k] == z;
      if k < |ids| - 1 { OnlyTheLastLinksBack(files, y, k); }
      LaterIsReached(files, y, c, i, k);
      ChainIsClosed(files, c, z);
    }
  }

  /** From anywhere on a cycle the whole cycle is walked, and nothing else. */
  lemma CycleIsWalkedWhole(files: map<Id, Transcript>, y: Id, c: Id)
    requires Uncut(files)
    ensures OnCycle(files, y) && c in ChainIds(files, y) ==>
              forall id :: id in ChainIds(files, c) <==> id in ChainIds(files, y)
  {
    if OnCycle(files, y) && c in ChainIds(files, y) {
      CycleComesRound(files, y, c);
      forall id ensures id in ChainIds(files, c) <==> id in ChainIds(files, y) {
        if id in ChainIds(files, c) { ChainStaysIn(files, y, c, id); }
        if id in ChainIds(files, y) { ChainStaysIn(files, c, y, id); }
      }
    }
  }

  /** Continuing a chain from outside it makes a chain longer by one. */
  lemma LongerChain(files: map<Id, Transcript>, z: Id, y: Id)
    requires Uncut(files) && Link(files, z) == Some(y) && z !in ChainIds(files, y)
    ensures ChainIds(files, z) == [z] + ChainIds(files, y)
  {
    UnmetIsNoMatter(files, Some(y), {}, MAX_DEPTH, z);
    WalkWithLessRoom(files, Some(y), {z}, MAX_DEPTH - 1);
    assert {} + {z} == {z};
  }

  /** Backwards from a chain that shows `x` to a listed one that does. */
  lemma {:induction false} ShownBySomeone(files: map<Id, Transcript>, x: Id, y: Id)
    requires Uncut(files) && y in files && x in ChainIds(files, y)
    requires EveryCycleIsEntered(files)
    ensures IsShown(files, x)
    decreases files.Keys - IdSet(files, y)
  {
    if y in SupersededIds(files) {
      if OnCycle(files, y) {
        var z :| Enters(files, z, y);
        var c := Link(files, z).value;
        CycleIsWalkedWhole(files, y, c);
        LongerChain(files, z, c);
        ShownFrom(files, x, y, z, c);
        ShownBySomeone(files, x, z);
      } else {
        var z :| z in files && Link(files, z) == Some(y);
        assert z !in ChainIds(files, y);
        LongerChain(files, z, y);
        ShownFrom(files, x, y, z, y);
        ShownBySomeone(files, x, z);
      }
    }
  }

  lemma ShownFrom(files: map<Id, Transcript>, x: Id, y: Id, z: Id, c: Id)
    requires z in files && z !in ChainIds(files, y) && x in ChainIds(files, y)
    requires ChainIds(files, z) == [z] + ChainIds(files, c)
    requires forall id :: id in ChainIds(files, c) <==> id in ChainIds(files, y)
    ensures x in ChainIds(files, z)
    ensures files.Keys - IdSet(files, z) < files.Keys - IdSet(files, y)
  {
    var i :| 0 <= i < |ChainIds(files, c)| && ChainIds(files, c)[i] == x;
    assert ChainIds(files, z)[i + 1] == x;
    assert forall id :: id in ChainIds(files, z) <==> id == z || id in ChainIds(files, y);
    assert z in files.Keys - IdSet(files, y) && z !in files.Keys - IdSet(files, z);
  }

  /** Between an id off a cycle and one on it, some link enters it. */
  lemma {:induction false} SomeLinkEnters(files: map<Id, Transcript>, x: Id, y: Id, k: nat) returns (z: Id)
    requires k < |ChainIds(files, y)| && ChainIds(files, y)[k] in ChainIds(files, x)
    requires ChainIds(files, y)[0] !in ChainIds(files, x)
    ensures Enters(files, z, x)
  {
    WalkFollowsLinks(files, Some(y), {}, MAX_DEPTH, k);
    z := ChainIds(files, y)[k - 1];
    if z in ChainIds(files, x) { z := SomeLinkEnters(files, x, y, k - 1); } else { LinkedIsStored(files, z); }
  }

  lemma CycleIsSuperseded(files: map<Id, Transcript>, x: Id, id: Id)
    ensures OnCycle(files, x) && id in ChainIds(files, x) ==> id in SupersededIds(files)
  {
    if OnCycle(files, x) && id in ChainIds(files, x) {
      var ids := ChainIds(files, x);
      ChainIsAncestors(files, x);
      var i :| 0 <= i < |ids| && ids[i] == id;
      if i == 0 {
        var z :| z in ids && Link(files, z) == Some(x);
        LinkedIsStored(files, z);
      } else {
        WalkFollowsLinks(files, Some(x), {}, MAX_DEPTH, i);
        LinkedIsStored(files, ids[i - 1]);
      }
    }
  }

  lemma ShownCycleIsEntered(files: map<Id, Transcript>, x: Id) returns (z: Id)
    ensures OnCycle(files, x) && IsShown(files, x) ==> Enters(files, z, x)
  {
    z := x;
    if OnCycle(files, x) && IsShown(files, x) {
      var y :| y in files && y !in SupersededIds(files) && x in ChainIds(files, y);
      ChainIsAncestors(files, y);
      ChainIsAncestors(files, x);
      if y in ChainIds(files, x) { CycleIsSuperseded(files, x, y); }
      var k :| 0 <= k < |ChainIds(files, y)| && ChainIds(files, y)[k] == x;
      z := SomeLinkEnters(files, x, y, k);
    }
  }

  /** Within the depth bound, hiding superseded transcripts loses nothing if and only if every
      cycle of links is entered from outside: some stored session off it continues one on it. */
  lemma HidingLosesNothingIff(files: map<Id, Transcript>)
    requires Uncut(files)
    ensures (forall x :: x in files ==> IsShown(files, x)) <==> EveryCycleIsEntered(files)
  {
    if EveryCycleIsEntered(files) {
      forall x | x in files ensures IsShown(files, x) {
        ChainIsAncestors(files, x);
        ShownBySomeone(files, x, x);
      }
    } else {
      var x :| x in files && OnCycle(files, x) && !exists z :: Enters(files, z, x);
      if IsShown(files, x) { var z := ShownCycleIsEntered(files, x); }
    }
  }

  // ---- Past the depth bound ------------------------------------------------------

  /** The stored sessions are one conversation of one more link than the bound allows, newest
      first. */
  ghost predicate IsTooLong(files: map<Id, Transcript>, ids: seq<Id>) {
    && |ids| == MAX_DEPTH + 1
    && (forall id :: id in files <==> id in ids)
    && (forall i, j :: 0 <= i < j < |ids| ==> ids[i] != ids[j])
    && (forall i :: 0 <= i < MAX_DEPTH ==> Link(files, ids[i]) == Some(ids[i + 1]))
    && Link(files, ids[MAX_DEPTH]).None?
  }

  lemma {:induction false} WalkGoesDown(files: map<Id, Transcript>, ids: seq<Id>, k: nat)
    requires IsTooLong(files, ids) && k < |ChainIds(files, ids[0])|
    ensures ChainIds(files, ids[0])[k] == ids[k]
  {
    if k > 0 { WalkGoesDown(files, ids, k - 1); }
    WalkFollowsLinks(files, Some(ids[0]), {}, MAX_DEPTH, k);
  }

  /** Past the bound something is lost without any cycle: the oldest session is on no listed
      chain. */
  lemma OldestIsCutOff(files: map<Id, Transcript>, ids: seq<Id>)
    requires IsTooLong(files, ids)
    ensures ids[MAX_DEPTH] in files && !IsShown(files, ids[MAX_DEPTH])
  {
    forall y | y in files && y !in SupersededIds(files) ensures ids[MAX_DEPTH] !in ChainIds(files, y) {
      var i :| 0 <= i < |ids| && ids[i] == y;
      if i > 0 {
        assert Link(files, ids[i - 1]) == Some(ids[i]);
        LinkedIsStored(files, ids[i - 1]);
      }
      forall k | 0 <= k < |ChainIds(files, y)| ensures ChainIds(files, y)[k] != ids[MAX_DEPTH] {
        WalkGoesDown(files, ids, k);
      }
    }
  }
}
