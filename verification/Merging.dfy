/** What merging streamed chunks may do to a batch, said of the records alone. */
module Merging {
  import opened Records

  /** A text chunk of the agent's: a message or a thought. */
  predicate IsPlainChunk(r: Record) {
    r.EntryRecord? && r.entry.Updated? && r.entry.update.AgentChunk? && r.entry.update.content.Plain?
  }

  /** Chunks of one kind that carry the same `_meta`. */
  predicate Alike(a: Record, b: Record) {
    && IsPlainChunk(a) && IsPlainChunk(b)
    && a.entry.update.kind == b.entry.update.kind && a.entry.update.meta == b.entry.update.meta
  }

  predicate IsPrompt(r: Record) { r.EntryRecord? && r.entry.Prompt? }

  predicate IsTurnEnd(r: Record) { r.EntryRecord? && r.entry.TurnEnd? }

  /** Before record `k` a prompted turn is live: one was already, or a prompt began it, and
      no turn end came since. */
  predicate LiveAt(rs: seq<Record>, k: nat, compactable: bool)
    requires k <= |rs|
  {
    || (compactable && forall i :: 0 <= i < k ==> !IsTurnEnd(rs[i]))
    || (exists j :: 0 <= j < k && IsPrompt(rs[j]) && forall i :: j < i < k ==> !IsTurnEnd(rs[i]))
  }

  /** Record `k` belongs in one line with the one before it. */
  predicate IsJoined(rs: seq<Record>, k: nat, compactable: bool) {
    0 < k < |rs| && LiveAt(rs, k, compactable) && Alike(rs[k - 1], rs[k])
  }

  predicate AllAlike(line: Record, piece: seq<Record>) {
    forall i :: 0 <= i < |piece| ==> Alike(line, piece[i])
  }

  function Texts(piece: seq<Record>): string
    requires forall i :: 0 <= i < |piece| ==> IsPlainChunk(piece[i])
  {
    if piece == [] then ""
    else
      assert IsPlainChunk(piece[|piece| - 1]);
      Texts(piece[..|piece| - 1]) + piece[|piece| - 1].entry.update.content.text
  }

  /** The one line a piece of the batch is written as: the record itself, or a chunk of every
      record's kind and `_meta` with their texts in order and the last one's time. */
  predicate StandsFor(line: Record, piece: seq<Record>) {
    if |piece| == 1 then line == piece[0]
    else
      && |piece| > 1 && IsPlainChunk(line) && AllAlike(line, piece)
      && line.entry.update.content.text == Texts(piece)
      && IsPlainChunk(piece[|piece| - 1]) && line.entry.t == piece[|piece| - 1].entry.t
  }

  predicate PieceStands(rs: seq<Record>, lines: seq<Record>, cuts: seq<nat>, i: nat)
    requires |cuts| == |lines| + 1 && i < |lines|
  {
    cuts[i] < cuts[i + 1] <= |rs| && StandsFor(lines[i], rs[cuts[i]..cuts[i + 1]])
  }

  predicate PiecesStand(rs: seq<Record>, lines: seq<Record>, cuts: seq<nat>) {
    && |cuts| == |lines| + 1 && cuts[0] == 0 && cuts[|lines|] == |rs|
    && forall i :: 0 <= i < |lines| ==> PieceStands(rs, lines, cuts, i)
  }

  /** The lines merge the batch: cut exactly where two records do not belong together. */
  predicate IsMerging(rs: seq<Record>, compactable: bool, lines: seq<Record>, cuts: seq<nat>) {
    && PiecesStand(rs, lines, cuts)
    && (forall k :: 0 < k < |rs| ==> (k in cuts <==> !IsJoined(rs, k, compactable)))
  }

  /** The lines, and whether a turn is live after them. */
  ghost predicate IsMergeOf(rs: seq<Record>, compactable: bool, lines: seq<Record>, live: bool) {
    live == LiveAt(rs, |rs|, compactable) && exists cuts :: IsMerging(rs, compactable, lines, cuts)
  }

  lemma LivePrefix(rs: seq<Record>, more: seq<Record>, k: nat, compactable: bool)
    requires k <= |rs|
    ensures LiveAt(rs + more, k, compactable) <==> LiveAt(rs, k, compactable)
  {
    assert forall i :: 0 <= i < k ==> (rs + more)[i] == rs[i];
  }

  lemma LiveNext(rs: seq<Record>, x: Record, compactable: bool)
    ensures LiveAt(rs + [x], |rs| + 1, compactable) <==>
            IsPrompt(x) || (LiveAt(rs, |rs|, compactable) && !IsTurnEnd(x))
  {
    var all := rs + [x];
    assert all[|rs|] == x && forall i :: 0 <= i < |rs| ==> all[i] == rs[i];
    if !IsPrompt(x) && LiveAt(rs, |rs|, compactable) && !IsTurnEnd(x) {
      if j :| 0 <= j < |rs| && IsPrompt(rs[j]) && forall i :: j < i < |rs| ==> !IsTurnEnd(rs[i]) {
        assert IsPrompt(all[j]);
      }
    }
  }

  lemma JoinedPrefix(rs: seq<Record>, x: Record, k: nat, compactable: bool)
    requires k < |rs|
    ensures IsJoined(rs + [x], k, compactable) <==> IsJoined(rs, k, compactable)
  {
    LivePrefix(rs, [x], k, compactable);
  }

  lemma TextsNext(piece: seq<Record>, x: Record)
    requires IsPlainChunk(x) && forall i :: 0 <= i < |piece| ==> IsPlainChunk(piece[i])
    ensures forall i :: 0 <= i <= |piece| ==> IsPlainChunk((piece + [x])[i])
    ensures Texts(piece + [x]) == Texts(piece) + x.entry.update.content.text
  {
    assert (piece + [x])[..|piece|] == piece;
  }

  /** One more chunk folded into the line of a piece. */
  lemma StandsForMore(line: Record, folded: Record, piece: seq<Record>, x: Record)
    requires StandsFor(line, piece) && Alike(line, x) && Alike(folded, x)
    requires folded.entry.update.content.text == line.entry.update.content.text + x.entry.update.content.text
    requires folded.entry.t == x.entry.t
    ensures StandsFor(folded, piece + [x])
  {
    assert AllAlike(folded, piece + [x]);
    assert forall i :: 0 <= i < |piece| ==> Alike(folded, (piece + [x])[i]);
    TextsNext(piece, x);
    if |piece| == 1 {
      assert piece == [] + [line];
      TextsNext([], line);
      assert "" + line.entry.update.content.text == line.entry.update.content.text;
    }
  }

  lemma PieceKept(rs: seq<Record>, lines: seq<Record>, cuts: seq<nat>, x: Record,
                  moreLines: seq<Record>, more: seq<nat>, i: nat)
    requires PiecesStand(rs, lines, cuts) && i < |lines|
    requires |more| == |moreLines| + 1 && i < |moreLines|
    requires more[i] == cuts[i] && more[i + 1] == cuts[i + 1] && moreLines[i] == lines[i]
    ensures PieceStands(rs + [x], moreLines, more, i)
  {
    assert PieceStands(rs, lines, cuts, i);
    assert (rs + [x])[more[i]..more[i + 1]] == rs[cuts[i]..cuts[i + 1]];
  }

  lemma PiecesGrow(rs: seq<Record>, lines: seq<Record>, cuts: seq<nat>, x: Record)
    requires PiecesStand(rs, lines, cuts)
    ensures PiecesStand(rs + [x], lines + [x], cuts + [|rs| + 1])
  {
    var all, more := rs + [x], cuts + [|rs| + 1];
    forall i | 0 <= i < |lines| + 1 ensures PieceStands(all, lines + [x], more, i) {
      if i < |lines| {
        PieceKept(rs, lines, cuts, x, lines + [x], more, i);
      } else {
        assert all[|rs|..|rs| + 1] == [x];
      }
    }
  }

  lemma MergingGrows(rs: seq<Record>, compactable: bool, lines: seq<Record>, cuts: seq<nat>, x: Record)
    requires IsMerging(rs, compactable, lines, cuts) && !IsJoined(rs + [x], |rs|, compactable)
    ensures IsMerging(rs + [x], compactable, lines + [x], cuts + [|rs| + 1])
  {
    var all, more := rs + [x], cuts + [|rs| + 1];
    PiecesGrow(rs, lines, cuts, x);
    forall k | 0 < k < |all| ensures k in more <==> !IsJoined(all, k, compactable) {
      if k < |rs| { JoinedPrefix(rs, x, k, compactable); } else { assert more[|lines|] == k; }
    }
  }

  lemma CutsIncrease(rs: seq<Record>, lines: seq<Record>, cuts: seq<nat>, i: nat, j: nat)
    requires PiecesStand(rs, lines, cuts) && i < j < |cuts|
    ensures cuts[i] < cuts[j]
    decreases j - i
  {
    assert PieceStands(rs, lines, cuts, j - 1);
    if i + 1 < j { CutsIncrease(rs, lines, cuts, i, j - 1); }
  }

  lemma PiecesJoin(rs: seq<Record>, lines: seq<Record>, line: Record, cuts: seq<nat>, x: Record, folded: Record)
    requires PiecesStand(rs, lines + [line], cuts) && cuts[|lines|] <= |rs|
    requires StandsFor(folded, rs[cuts[|lines|]..] + [x])
    ensures PiecesStand(rs + [x], lines + [folded], cuts[..|cuts| - 1] + [|rs| + 1])
  {
    var all, more := rs + [x], cuts[..|cuts| - 1] + [|rs| + 1];
    forall i | 0 <= i < |lines| + 1 ensures PieceStands(all, lines + [folded], more, i) {
      if i < |lines| {
        PieceKept(rs, lines + [line], cuts, x, lines + [folded], more, i);
      } else {
        assert all[more[i]..|rs| + 1] == rs[cuts[|lines|]..] + [x];
      }
    }
  }

  lemma CutsJoin(rs: seq<Record>, lines: seq<Record>, cuts: seq<nat>, k: nat)
    requires PiecesStand(rs, lines, cuts) && 0 < k <= |rs| && lines != []
    ensures k in cuts[..|cuts| - 1] + [|rs| + 1] <==> k in cuts && k < |rs|
  {
    var more := cuts[..|cuts| - 1] + [|rs| + 1];
    if k in cuts && k < |rs| {
      var i :| 0 <= i < |cuts| && cuts[i] == k;
      assert more[i] == k;
    }
    if k in more {
      var i :| 0 <= i < |more| && more[i] == k;
      CutsIncrease(rs, lines, cuts, i, |cuts| - 1);
    }
  }

  lemma MergingJoins(rs: seq<Record>, compactable: bool, lines: seq<Record>, line: Record, cuts: seq<nat>,
                     x: Record, folded: Record)
    requires IsMerging(rs, compactable, lines + [line], cuts) && IsJoined(rs + [x], |rs|, compactable)
    requires cuts[|lines|] <= |rs| && StandsFor(folded, rs[cuts[|lines|]..] + [x])
    ensures IsMerging(rs + [x], compactable, lines + [folded], cuts[..|cuts| - 1] + [|rs| + 1])
  {
    var all, more := rs + [x], cuts[..|cuts| - 1] + [|rs| + 1];
    PiecesJoin(rs, lines, line, cuts, x, folded);
    forall k | 0 < k < |all| ensures k in more <==> !IsJoined(all, k, compactable) {
      CutsJoin(rs, lines + [line], cuts, k);
      if k < |rs| { JoinedPrefix(rs, x, k, compactable); }
    }
  }
}
