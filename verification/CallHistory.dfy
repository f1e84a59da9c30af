/** What a call's card shows, read off the notifications the agent sent for it. */
module CallHistory {
  import opened Records
  import opened Projection
  import opened ToolCards
  import Whitespace

  /** A notification with something to show as a result. */
  predicate Bears(f: CallFields) { f.output.Some? || f.images != [] || f.failed }

  predicate Titled(f: CallFields) { f.title.Some? && f.title.value != [] }

  predicate EverBears(fs: seq<CallFields>) { exists i :: 0 <= i < |fs| && Bears(fs[i]) }

  function LatestInput(fs: seq<CallFields>): Option<string> {
    if fs == [] then None
    else if fs[|fs| - 1].input.Some? then fs[|fs| - 1].input else LatestInput(fs[..|fs| - 1])
  }

  function LatestMeta(fs: seq<CallFields>): Option<string> {
    if fs == [] then None
    else if fs[|fs| - 1].meta.Some? then fs[|fs| - 1].meta else LatestMeta(fs[..|fs| - 1])
  }

  function LatestOutput(fs: seq<CallFields>): Option<string> {
    if fs == [] then None
    else if fs[|fs| - 1].output.Some? then fs[|fs| - 1].output else LatestOutput(fs[..|fs| - 1])
  }

  function LatestImages(fs: seq<CallFields>): seq<string> {
    if fs == [] then []
    else if fs[|fs| - 1].images != [] then fs[|fs| - 1].images else LatestImages(fs[..|fs| - 1])
  }

  /** Whether the last notification that bore a result said the call failed. */
  function LatestFailed(fs: seq<CallFields>): bool {
    if fs == [] then false
    else if Bears(fs[|fs| - 1]) then fs[|fs| - 1].failed else LatestFailed(fs[..|fs| - 1])
  }

  /** The last title that is not empty; before any, the first notification's own. */
  function LatestName(fs: seq<CallFields>): string {
    if fs == [] then ""
    else if Titled(fs[|fs| - 1]) then fs[|fs| - 1].title.value
    else if |fs| == 1 then (if fs[0].title.Some? then fs[0].title.value else "tool")
    else LatestName(fs[..|fs| - 1])
  }

  function UseCard(id: string, fs: seq<CallFields>): Block {
    ToolUse(id, LatestName(fs), LatestInput(fs), LatestMeta(fs))
  }

  function ResultCard(id: string, fs: seq<CallFields>): Block {
    ToolResult(id, LatestOutput(fs), LatestFailed(fs), LatestImages(fs))
  }

  predicate ShowsUse(blocks: seq<Block>, id: string, fs: seq<CallFields>) {
    && (fs != [] ==> exists i :: 0 <= i < |blocks| && blocks[i] == UseCard(id, fs))
    && (forall i :: 0 <= i < |blocks| && blocks[i].ToolUse? && blocks[i].useId == id ==>
          fs != [] && blocks[i] == UseCard(id, fs))
  }

  predicate ShowsResult(blocks: seq<Block>, id: string, fs: seq<CallFields>) {
    && (EverBears(fs) ==> exists i :: 0 <= i < |blocks| && blocks[i] == ResultCard(id, fs))
    && (forall i :: 0 <= i < |blocks| && blocks[i].ToolResult? && blocks[i].resultId == id ==>
          EverBears(fs) && blocks[i] == ResultCard(id, fs))
  }

  /** The blocks hold a call's cards as its notifications leave them: one for the call from the
      first on, one for its result once any bore one, and none besides. */
  predicate ShowsCall(blocks: seq<Block>, id: string, fs: seq<CallFields>) {
    ShowsUse(blocks, id, fs) && ShowsResult(blocks, id, fs)
  }

  lemma BearsNext(fs: seq<CallFields>, f: CallFields)
    ensures EverBears(fs + [f]) <==> EverBears(fs) || Bears(f)
  {
    assert (fs + [f])[|fs|] == f;
    if EverBears(fs) {
      var i :| 0 <= i < |fs| && Bears(fs[i]);
      assert Bears((fs + [f])[i]);
    }
  }

  lemma UseCardNext(id: string, fs: seq<CallFields>, f: CallFields)
    ensures fs == [] ==>
              UseCard(id, fs + [f]) == ToolUse(id, if f.title.Some? then f.title.value else "tool", f.input, f.meta)
    ensures fs != [] ==> UseCard(id, fs + [f]) == PatchUse(UseCard(id, fs), f)
  {
    var all := fs + [f];
    assert all[..|fs|] == fs && all[|fs|] == f;
    assert fs == [] ==> LatestInput(fs).None? && LatestMeta(fs).None?;
  }

  lemma {:induction false} NothingBorne(fs: seq<CallFields>)
    requires !EverBears(fs)
    ensures LatestOutput(fs).None? && LatestImages(fs) == [] && !LatestFailed(fs)
  {
    if fs != [] {
      var init := fs[..|fs| - 1];
      assert !Bears(fs[|fs| - 1]) && forall i :: 0 <= i < |init| ==> init[i] == fs[i] && !Bears(fs[i]);
      NothingBorne(init);
    }
  }

  lemma ResultCardNext(id: string, fs: seq<CallFields>, f: CallFields)
    ensures !Bears(f) ==> ResultCard(id, fs + [f]) == ResultCard(id, fs)
    ensures Bears(f) && EverBears(fs) ==> ResultCard(id, fs + [f]) == PatchResult(ResultCard(id, fs), f)
    ensures Bears(f) && !EverBears(fs) ==> ResultCard(id, fs + [f]) == ToolResult(id, f.output, f.failed, f.images)
  {
    assert (fs + [f])[..|fs|] == fs;
    if !EverBears(fs) { NothingBorne(fs); }
  }

  lemma ReplacedElsewhere(blocks: seq<Block>, i: nat, b: Block, id: string, fs: seq<CallFields>)
    requires ShowsCall(blocks, id, fs) && i < |blocks| && SameCard(blocks[i], b)
    requires blocks[i].ToolUse? ==> blocks[i].useId != id
    requires blocks[i].ToolResult? ==> blocks[i].resultId != id
    ensures ShowsCall(blocks[i := b], id, fs)
  {
    var now := blocks[i := b];
    if fs != [] {
      var k :| 0 <= k < |blocks| && blocks[k] == UseCard(id, fs);
      assert now[k] == UseCard(id, fs);
    }
    if EverBears(fs) {
      var k :| 0 <= k < |blocks| && blocks[k] == ResultCard(id, fs);
      assert now[k] == ResultCard(id, fs);
    }
  }

  lemma AddedElsewhere(blocks: seq<Block>, b: Block, id: string, fs: seq<CallFields>)
    requires ShowsCall(blocks, id, fs)
    requires (b.ToolUse? ==> b.useId != id) && (b.ToolResult? ==> b.resultId != id)
    ensures ShowsCall(blocks + [b], id, fs)
  {
    var now := blocks + [b];
    if fs != [] {
      var k :| 0 <= k < |blocks| && blocks[k] == UseCard(id, fs);
      assert now[k] == UseCard(id, fs);
    }
    if EverBears(fs) {
      var k :| 0 <= k < |blocks| && blocks[k] == ResultCard(id, fs);
      assert now[k] == ResultCard(id, fs);
    }
  }

  // ---- Edits to other things leave a call's cards alone ------------------------------

  lemma TextElsewhere(p: Pending, text: string, thinking: bool, id: string, fs: seq<CallFields>)
    requires ShowsCall(p.cards.blocks, id, fs)
    ensures ShowsCall(PushText(p, text, thinking).cards.blocks, id, fs)
  {
    var blocks := p.cards.blocks;
    var last := |blocks| - 1;
    if text != [] {
      if last >= 0 && !thinking && blocks[last].Text? {
        ReplacedElsewhere(blocks, last, Text(blocks[last].text + text), id, fs);
      } else if last >= 0 && thinking && blocks[last].Thinking? {
        ReplacedElsewhere(blocks, last, Thinking(blocks[last].text + text), id, fs);
      } else {
        AddedElsewhere(blocks, if thinking then Thinking(text) else Text(text), id, fs);
      }
    }
  }

  lemma UseElsewhere(c: Cards, other: string, f: CallFields, id: string, fs: seq<CallFields>)
    requires Indexed(c) && other != id && ShowsCall(c.blocks, id, fs)
    ensures ShowsCall(UpsertUse(c, other, f).blocks, id, fs)
  {
    if other in c.uses {
      ReplacedElsewhere(c.blocks, c.uses[other], PatchUse(c.blocks[c.uses[other]], f), id, fs);
    } else {
      var name := if f.title.Some? then f.title.value else "tool";
      AddedElsewhere(c.blocks, ToolUse(other, name, f.input, f.meta), id, fs);
    }
  }

  lemma ResultElsewhere(c: Cards, other: string, f: CallFields, id: string, fs: seq<CallFields>)
    requires Indexed(c) && other != id && ShowsCall(c.blocks, id, fs)
    ensures ShowsCall(UpsertResult(c, other, f).blocks, id, fs)
  {
    if other in c.results {
      ReplacedElsewhere(c.blocks, c.results[other], PatchResult(c.blocks[c.results[other]], f), id, fs);
    } else {
      AddedElsewhere(c.blocks, ToolResult(other, f.output, f.failed, f.images), id, fs);
    }
  }

  lemma PlanElsewhere(c: Cards, todos: string, id: string, fs: seq<CallFields>)
    requires Indexed(c) && id != PLAN_ID && ShowsCall(c.blocks, id, fs)
    ensures ShowsCall(UpsertPlan(c, todos).blocks, id, fs)
  {
    if PLAN_ID in c.uses {
      ReplacedElsewhere(c.blocks, c.uses[PLAN_ID], c.blocks[c.uses[PLAN_ID]].(input := Some(todos)), id, fs);
    } else {
      AddedElsewhere(c.blocks, ToolUse(PLAN_ID, "TodoWrite", Some(todos), None), id, fs);
    }
  }

  // ---- A notification for the call itself --------------------------------------------

  /** The index knows exactly the cards of one call. */
  predicate IndexedFor(c: Cards, id: string) {
    && (id in c.uses ==> c.uses[id] < |c.blocks| && c.blocks[c.uses[id]].ToolUse? && c.blocks[c.uses[id]].useId == id)
    && (id in c.results ==> c.results[id] < |c.blocks| && c.blocks[c.results[id]].ToolResult?
                            && c.blocks[c.results[id]].resultId == id)
    && (forall i :: 0 <= i < |c.blocks| && c.blocks[i].ToolUse? && c.blocks[i].useId == id ==>
          id in c.uses && c.uses[id] == i)
    && (forall i :: 0 <= i < |c.blocks| && c.blocks[i].ToolResult? && c.blocks[i].resultId == id ==>
          id in c.results && c.results[id] == i)
  }

  lemma UseUpsertFor(c: Cards, id: string, f: CallFields)
    requires IndexedFor(c, id)
    ensures IndexedFor(UpsertUse(c, id, f), id)
  {
  }

  lemma ShownIsIndexed(c: Cards, id: string, fs: seq<CallFields>)
    requires IndexedFor(c, id) && ShowsUse(c.blocks, id, fs)
    ensures fs != [] <==> id in c.uses
    ensures id in c.uses ==> c.blocks[c.uses[id]] == UseCard(id, fs)
  {
    if fs != [] {
      var k :| 0 <= k < |c.blocks| && c.blocks[k] == UseCard(id, fs);
      assert c.blocks[k].ToolUse? && c.blocks[k].useId == id;
    }
  }

  lemma UseShown(c: Cards, id: string, f: CallFields, fs: seq<CallFields>)
    requires IndexedFor(c, id) && ShowsUse(c.blocks, id, fs)
    ensures ShowsUse(UpsertUse(c, id, f).blocks, id, fs + [f])
  {
    ShownIsIndexed(c, id, fs);
    UseCardNext(id, fs, f);
    UseUpsertFor(c, id, f);
    var i := if id in c.uses then c.uses[id] else |c.blocks|;
    assert UpsertUse(c, id, f).blocks[i] == UseCard(id, fs + [f]);
    assert UpsertUse(c, id, f).uses[id] == i;
  }

  lemma UseLeavesResult(c: Cards, id: string, f: CallFields, fs: seq<CallFields>)
    requires IndexedFor(c, id) && ShowsResult(c.blocks, id, fs)
    ensures ShowsResult(UpsertUse(c, id, f).blocks, id, fs)
  {
    if EverBears(fs) {
      var k :| 0 <= k < |c.blocks| && c.blocks[k] == ResultCard(id, fs);
      assert UpsertUse(c, id, f).blocks[k] == ResultCard(id, fs);
    }
  }

  lemma ResultLeavesUse(c: Cards, id: string, f: CallFields, fs: seq<CallFields>)
    requires IndexedFor(c, id) && ShowsUse(c.blocks, id, fs)
    ensures ShowsUse(UpsertResult(c, id, f).blocks, id, fs)
  {
    if fs != [] {
      var k :| 0 <= k < |c.blocks| && c.blocks[k] == UseCard(id, fs);
      assert UpsertResult(c, id, f).blocks[k] == UseCard(id, fs);
    }
  }

  lemma ResultShown(c: Cards, id: string, f: CallFields, fs: seq<CallFields>)
    requires IndexedFor(c, id) && ShowsResult(c.blocks, id, fs)
    ensures ShowsResult(UpsertResult(c, id, f).blocks, id, fs + [f])
  {
    BearsNext(fs, f);
    ResultCardNext(id, fs, f);
    var now := UpsertResult(c, id, f).blocks;
    if Bears(f) {
      if id in c.results {
        assert now[c.results[id]] == ResultCard(id, fs + [f]);
      } else {
        assert now[|c.blocks|] == ResultCard(id, fs + [f]);
      }
    }
  }

  lemma CallShown(c: Cards, id: string, f: CallFields, fs: seq<CallFields>)
    requires IndexedFor(c, id) && ShowsCall(c.blocks, id, fs)
    ensures ShowsCall(UpsertCall(c, id, f).blocks, id, fs + [f])
  {
    UseUpsertFor(c, id, f);
    UseShown(c, id, f, fs);
    UseLeavesResult(c, id, f, fs);
    ResultLeavesUse(UpsertUse(c, id, f), id, f, fs + [f]);
    ResultShown(UpsertUse(c, id, f), id, f, fs);
  }

  // ---- Over a run of the agent's work ------------------------------------------------

  predicate IsWork(e: Entry) { e.Updated? && !e.update.UserChunk? }

  /** Work that does not touch a call's card by another way: a plan does when the call goes by
      the plan card's own id. */
  predicate WorkBesides(e: Entry, id: string) {
    IsWork(e) && (e.update.Plan? ==> id != PLAN_ID)
  }

  predicate Notes(e: Entry, id: string) {
    e.Updated? && (e.update.ToolCall? || e.update.ToolCallUpdate?) && e.update.callId == id
  }

  /** A call's notifications, in order. */
  function NotedFor(es: seq<Entry>, id: string): seq<CallFields> {
    if es == [] then []
    else NotedFor(es[..|es| - 1], id) + if Notes(es[|es| - 1], id) then [es[|es| - 1].update.call] else []
  }

  predicate HasUse(blocks: seq<Block>, id: string) {
    exists i :: 0 <= i < |blocks| && blocks[i].ToolUse? && blocks[i].useId == id
  }

  predicate NoUseFrom(turns: seq<Turn>, reach: nat, id: string) {
    forall k :: reach <= k < |turns| ==> !HasUse(turns[k].blocks, id)
  }

  /** No closed turn that an update may go back to has a card for the call: any turn's
      between turns, this prompt's inside one. */
  predicate NotClosed(r: Reader, id: string) {
    if r.betweenTurns then NoUseFrom(r.turns, 0, id)
    else r.promptStart.Some? ==> NoUseFrom(r.turns, r.promptStart.value, id)
  }

  /** The open turn shows the call as `fs` leave it, and has content once they do. */
  predicate ShownOpen(r: Reader, id: string, fs: seq<CallFields>) {
    && CardsInOrder(r)
    && (r.pending.Some? ==> ShowsCall(r.pending.value.cards.blocks, id, fs))
    && (fs != [] ==> r.pending.Some? && r.pending.value.hasContent)
  }

  lemma OpenShown(r: Reader, at: nat, id: string, fs: seq<CallFields>)
    requires ShownOpen(r, id, fs)
    ensures ShownOpen(OpenTurn(r, at), id, fs)
  {
  }

  lemma TrimAddsNoUse(turns: seq<Turn>, k: nat, id: string)
    requires k < |turns|
    ensures |TrimOpenProse(turns)| == |turns|
    ensures HasUse(TrimOpenProse(turns)[k].blocks, id) ==> HasUse(turns[k].blocks, id)
  {
    var now := TrimOpenProse(turns)[k].blocks;
    if i :| 0 <= i < |now| && now[i].ToolUse? && now[i].useId == id {
      assert turns[k].blocks[i].ToolUse? && turns[k].blocks[i].useId == id;
    }
  }

  lemma TrimLacksUse(turns: seq<Turn>, reach: nat, id: string)
    requires NoUseFrom(turns, reach, id)
    ensures NoUseFrom(TrimOpenProse(turns), reach, id)
  {
    forall k | reach <= k < |turns|
      ensures |TrimOpenProse(turns)| == |turns| && !HasUse(TrimOpenProse(turns)[k].blocks, id)
    {
      TrimAddsNoUse(turns, k, id);
    }
  }

  lemma LastCardIsUse(blocks: seq<Block>, id: string)
    ensures LastCard(blocks, id, false).Some? <==> HasUse(blocks, id)
  {
    LastCardFound(blocks, id, false);
  }

  lemma TrimNotClosed(r: Reader, id: string)
    requires NotClosed(r, id)
    ensures NotClosed(CloseProse(r), id)
  {
    if r.betweenTurns {
      TrimLacksUse(r.turns, 0, id);
    } else if r.promptStart.Some? {
      TrimLacksUse(r.turns, r.promptStart.value, id);
    }
  }

  lemma PatchElsewhere(turn: Turn, other: string, f: CallFields, id: string)
    requires LastCard(turn.blocks, other, false).Some? && other != id && !HasUse(turn.blocks, id)
    ensures !HasUse(PatchClosedTurn(turn, other, f).blocks, id)
  {
    LastCardFound(turn.blocks, other, false);
    LastCardFound(turn.blocks, other, true);
    var now := PatchClosedTurn(turn, other, f).blocks;
    forall i | 0 <= i < |now| ensures now[i].ToolUse? ==> now[i].useId != id {
      if i < |turn.blocks| { assert SameCard(turn.blocks[i], now[i]); }
    }
  }

  lemma NoUseMisses(turns: seq<Turn>, reach: nat, id: string)
    requires NoUseFrom(turns, reach, id)
    ensures ClosedCardTurn(turns, reach, id).None?
  {
    ClosedTurnFound(turns, reach, id);
    var i := ClosedCardTurn(turns, reach, id);
    if i.Some? { LastCardIsUse(turns[i.value].blocks, id); }
  }

  lemma ChunkShown(r: Reader, at: nat, kind: ChunkKind, c: Content, id: string, fs: seq<CallFields>)
    requires ShownOpen(r, id, fs)
    ensures ShownOpen(OnAgentChunk(r, at, kind, c), id, fs)
  {
    OpenShown(r, at, id, fs);
    AgentChunkKeepsCards(r, at, kind, c);
    var p := OpenTurn(r, at).pending.value;
    if kind.Message? && c.Picture? {
      AddedElsewhere(p.cards.blocks, Image(c.data), id, fs);
    } else {
      TextElsewhere(p, ChunkText(c), kind.Thought?, id, fs);
    }
  }

  lemma CallNoted(r: Reader, at: nat, called: string, f: CallFields, id: string, fs: seq<CallFields>)
    requires ShownOpen(r, id, fs)
    ensures ShownOpen(InOpenTurn(r, at, c => UpsertCall(c, called, f)), id, if called == id then fs + [f] else fs)
  {
    OpenShown(r, at, id, fs);
    CallOpensInOrder(r, at, called, f);
    var c := OpenTurn(r, at).pending.value.cards;
    if called == id {
      CallShown(c, id, f, fs);
    } else {
      UseElsewhere(c, called, f, id, fs);
      UseUpsertIndexed(c, called, f);
      ResultElsewhere(UpsertUse(c, called, f), called, f, id, fs);
    }
  }

  lemma PlanShown(r: Reader, at: nat, todos: string, id: string, fs: seq<CallFields>)
    requires ShownOpen(r, id, fs) && id != PLAN_ID
    ensures ShownOpen(InOpenTurn(r, at, c => UpsertPlan(c, todos)), id, fs)
  {
    OpenShown(r, at, id, fs);
    var c := OpenTurn(r, at).pending.value.cards;
    PlanElsewhere(c, todos, id, fs);
    PlanIndexed(c, todos);
  }

  lemma PatchLacksUse(turns: seq<Turn>, from: nat, called: string, f: CallFields, reach: nat, id: string)
    requires NoUseFrom(turns, reach, id) && reach <= from
    ensures var i := ClosedCardTurn(turns, from, called);
            i.Some? ==> NoUseFrom(turns[i.value := PatchClosedTurn(turns[i.value], called, f)], reach, id)
  {
    var i := ClosedCardTurn(turns, from, called);
    if i.Some? {
      ClosedTurnFound(turns, from, called);
      LastCardIsUse(turns[i.value].blocks, called);
      if called != id { PatchElsewhere(turns[i.value], called, f, id); }
    }
  }

  /** An update for another call, or for this one while the open turn holds its card or no
      closed turn does. */
  lemma UpdateNoted(r: Reader, at: nat, called: string, f: CallFields, id: string, fs: seq<CallFields>)
    requires ShownOpen(r, id, fs) && (called == id ==> NotClosed(r, id) || fs != [])
    ensures ShownOpen(OnToolCallUpdate(r, at, called, f), id, if called == id then fs + [f] else fs)
  {
    CallNoted(r, at, called, f, id, fs);
    CallKeepsCards(r, at, called, f);
    var reach := if r.betweenTurns then Some(0) else r.promptStart;
    if called == id {
      if fs != [] {
        ShownIsIndexed(r.pending.value.cards, id, fs);
      } else if reach.Some? {
        NoUseMisses(r.turns, reach.value, id);
      }
    }
  }

  lemma StepShown(r: Reader, e: Entry, id: string, fs: seq<CallFields>)
    requires ShownOpen(r, id, fs) && IsWork(e) && (e.update.Plan? ==> id != PLAN_ID)
    requires Notes(e, id) && e.update.ToolCallUpdate? ==> NotClosed(r, id) || fs != []
    ensures ShownOpen(Step(r, e), id, if Notes(e, id) then fs + [e.update.call] else fs)
  {
    CloseKeepsCards(r);
    var q := CloseProse(r);
    if NotClosed(r, id) { TrimNotClosed(r, id); }
    match e.update
    case AgentChunk(kind, content, _) => ChunkShown(q, e.t, kind, content, id, fs);
    case ToolCall(called, f) => CallNoted(q, e.t, called, f, id, fs);
    case ToolCallUpdate(called, f) => UpdateNoted(q, e.t, called, f, id, fs);
    case Plan(todos) => PlanShown(q, e.t, todos, id, fs);
    case UsageUpdate(_, _) =>
  }

  lemma UpdateNotClosed(r: Reader, at: nat, called: string, f: CallFields, id: string)
    requires NotClosed(r, id)
    ensures NotClosed(OnToolCallUpdate(r, at, called, f), id)
  {
    EditLeavesTurns(r, at, c => UpsertCall(c, called, f));
    var reach := if r.betweenTurns then Some(0) else r.promptStart;
    if reach.Some? { PatchLacksUse(r.turns, reach.value, called, f, reach.value, id); }
  }

  /** The closed turns, and how far back an update may reach. */
  predicate SameBehind(a: Reader, b: Reader) {
    b.turns == a.turns && b.betweenTurns == a.betweenTurns && b.promptStart == a.promptStart
  }

  lemma EditLeavesTurns(r: Reader, at: nat, edit: Cards -> Cards)
    ensures SameBehind(r, InOpenTurn(r, at, edit))
  {
  }

  lemma ChunkLeavesTurns(r: Reader, at: nat, kind: ChunkKind, c: Content)
    ensures SameBehind(r, OnAgentChunk(r, at, kind, c))
  {
  }

  lemma WorkLeavesTurns(r: Reader, e: Entry)
    requires IsWork(e) && !e.update.ToolCallUpdate?
    ensures SameBehind(CloseProse(r), Step(r, e))
  {
    var q := CloseProse(r);
    match e.update
    case AgentChunk(kind, content, _) => ChunkLeavesTurns(q, e.t, kind, content);
    case ToolCall(id, f) => EditLeavesTurns(q, e.t, c => UpsertCall(c, id, f));
    case Plan(todos) => EditLeavesTurns(q, e.t, c => UpsertPlan(c, todos));
    case UsageUpdate(_, _) =>
  }

  lemma StepNotClosed(r: Reader, e: Entry, id: string)
    requires NotClosed(r, id) && IsWork(e)
    ensures NotClosed(Step(r, e), id)
  {
    TrimNotClosed(r, id);
    if e.update.ToolCallUpdate? {
      UpdateNotClosed(CloseProse(r), e.t, e.update.callId, e.update.call, id);
    } else {
      WorkLeavesTurns(r, e);
    }
  }

  lemma {:induction false} ReadShown(r: Reader, es: seq<Entry>, id: string)
    requires ShownOpen(r, id, []) && NotClosed(r, id) && forall i :: 0 <= i < |es| ==> WorkBesides(es[i], id)
    ensures ShownOpen(Read(r, es), id, NotedFor(es, id)) && NotClosed(Read(r, es), id)
    decreases |es|
  {
    if es != [] {
      var init, e := es[..|es| - 1], es[|es| - 1];
      assert es == init + [e] && IsWork(e);
      assert forall i :: 0 <= i < |init| ==> init[i] == es[i];
      ReadShown(r, init, id);
      StepShown(Read(r, init), e, id, NotedFor(init, id));
      StepNotClosed(Read(r, init), e, id);
      ReadLast(r, es);
      var fs := NotedFor(init, id);
      assert fs + [] == fs;
      assert NotedFor(es, id) == if Notes(e, id) then fs + [e.update.call] else fs;
    }
  }

  /** Over any run of the agent's work that notes a call, between whatever else it streams,
      the turn it leaves shows the call once, with its latest title, input, output, images
      and metadata, failed exactly when the last notification with a result said so. */
  lemma CallShowsLatest(r: Reader, es: seq<Entry>, id: string)
    requires CardsInOrder(r) && NotClosed(r, id)
    requires r.pending.Some? ==> ShowsCall(r.pending.value.cards.blocks, id, [])
    requires NotedFor(es, id) != [] && forall i :: 0 <= i < |es| ==> WorkBesides(es[i], id)
    ensures var f := CloseTurn(Read(r, es));
            f.turns != [] && f.turns[|f.turns| - 1].role.Assistant?
            && ShowsCall(f.turns[|f.turns| - 1].blocks, id, NotedFor(es, id))
  {
    ReadShown(r, es, id);
  }

  /** A call the open turn holds stays with it, whatever earlier turn had one of that id. */
  lemma {:induction false} HeldCallShowsLatest(r: Reader, es: seq<Entry>, id: string, fs: seq<CallFields>)
    requires ShownOpen(r, id, fs) && fs != [] && forall i :: 0 <= i < |es| ==> WorkBesides(es[i], id)
    ensures ShownOpen(Read(r, es), id, fs + NotedFor(es, id))
    decreases |es|
  {
    if es == [] {
      assert fs + [] == fs;
    } else {
      var init, e := es[..|es| - 1], es[|es| - 1];
      assert forall i :: 0 <= i < |init| ==> init[i] == es[i];
      HeldCallShowsLatest(r, init, id, fs);
      ReadLast(r, es);
      var noted := NotedFor(init, id);
      StepShown(Read(r, init), e, id, fs + noted);
      NotedAfter(fs, noted, es, id);
    }
  }

  lemma NotedAfter(fs: seq<CallFields>, noted: seq<CallFields>, es: seq<Entry>, id: string)
    requires es != [] && noted == NotedFor(es[..|es| - 1], id)
    ensures var e := es[|es| - 1];
            fs + NotedFor(es, id) == if Notes(e, id) then (fs + noted) + [e.update.call] else fs + noted
  {
    assert noted + [] == noted;
  }

  lemma PromptHidesEarlierCalls(r: Reader, prompt: Entry, id: string)
    requires prompt.Prompt? && !prompt.steer && CardFree(prompt)
    ensures NotClosed(OnPrompt(r, prompt), id)
  {
    var o := OnPrompt(r, prompt);
    assert |o.turns| <= o.promptStart.value + 1;
    if |o.turns| > o.promptStart.value {
      var blocks := o.turns[o.promptStart.value].blocks;
      assert forall k :: 0 <= k < |blocks| ==> blocks[k] in prompt.blocks;
    }
  }

  /** Inside a prompted turn nothing reaches back past the prompt: a call noted there shows in
      that turn, whatever the turns before it hold. */
  lemma PromptedCallShowsHere(r: Reader, prompt: Entry, es: seq<Entry>, id: string)
    requires CardsInOrder(r) && prompt.Prompt? && !prompt.steer && CardFree(prompt)
    requires NotedFor(es, id) != [] && forall i :: 0 <= i < |es| ==> WorkBesides(es[i], id)
    ensures var f := CloseTurn(Read(r, [prompt] + es));
            f.turns != [] && f.turns[|f.turns| - 1].role.Assistant?
            && ShowsCall(f.turns[|f.turns| - 1].blocks, id, NotedFor(es, id))
  {
    assert [prompt][1..] == [];
    ReadAppend(r, [prompt], es);
    PromptKeepsCards(r, prompt);
    PromptHidesEarlierCalls(r, prompt, id);
    CallShowsLatest(OnPrompt(r, prompt), es, id);
  }

  // ---- The plan -----------------------------------------------------------------------

  /** A plan as a notification for the plan's own card. */
  function AsNote(todos: string): CallFields {
    CallFields(Some("TodoWrite"), Some(todos), None, [], false, None)
  }

  function PlansIn(es: seq<Entry>): seq<CallFields> {
    if es == [] then []
    else PlansIn(es[..|es| - 1])
         + if es[|es| - 1].Updated? && es[|es| - 1].update.Plan? then [AsNote(es[|es| - 1].update.todos)] else []
  }

  predicate AllPlans(fs: seq<CallFields>) {
    forall i :: 0 <= i < |fs| ==> fs[i] == AsNote(if fs[i].input.Some? then fs[i].input.value else "")
  }

  lemma PlanCard(fs: seq<CallFields>)
    requires AllPlans(fs) && fs != []
    ensures UseCard(PLAN_ID, fs) == ToolUse(PLAN_ID, "TodoWrite", fs[|fs| - 1].input, None)
    ensures !EverBears(fs)
  {
    assert fs[|fs| - 1] == AsNote(if fs[|fs| - 1].input.Some? then fs[|fs| - 1].input.value else "");
    NoPlanMeta(fs);
  }

  lemma {:induction false} NoPlanMeta(fs: seq<CallFields>)
    requires AllPlans(fs)
    ensures LatestMeta(fs).None?
  {
    if fs != [] { NoPlanMeta(fs[..|fs| - 1]); }
  }

  lemma PlanNoted(r: Reader, at: nat, todos: string, fs: seq<CallFields>)
    requires ShownOpen(r, PLAN_ID, fs) && AllPlans(fs)
    ensures ShownOpen(InOpenTurn(r, at, c => UpsertPlan(c, todos)), PLAN_ID, fs + [AsNote(todos)])
  {
    OpenShown(r, at, PLAN_ID, fs);
    var c := OpenTurn(r, at).pending.value.cards;
    CallNoted(r, at, PLAN_ID, AsNote(todos), PLAN_ID, fs);
    ShownIsIndexed(c, PLAN_ID, fs);
    if fs != [] { PlanCard(fs); }
    assert UpsertPlan(c, todos) == UpsertCall(c, PLAN_ID, AsNote(todos));
  }

  lemma StepPlans(r: Reader, e: Entry, fs: seq<CallFields>)
    requires ShownOpen(r, PLAN_ID, fs) && AllPlans(fs) && IsWork(e) && !Notes(e, PLAN_ID)
    ensures ShownOpen(Step(r, e), PLAN_ID, if e.update.Plan? then fs + [AsNote(e.update.todos)] else fs)
  {
    if e.update.Plan? {
      CloseKeepsCards(r);
      PlanNoted(CloseProse(r), e.t, e.update.todos, fs);
    } else {
      StepShown(r, e, PLAN_ID, fs);
    }
  }

  lemma {:induction false} PlansAreNotes(es: seq<Entry>)
    ensures AllPlans(PlansIn(es))
  {
    if es != [] { PlansAreNotes(es[..|es| - 1]); }
  }

  lemma {:induction false} ReadPlans(r: Reader, es: seq<Entry>)
    requires ShownOpen(r, PLAN_ID, [])
    requires forall i :: 0 <= i < |es| ==> IsWork(es[i]) && !Notes(es[i], PLAN_ID)
    ensures ShownOpen(Read(r, es), PLAN_ID, PlansIn(es))
    decreases |es|
  {
    if es != [] {
      var init, e := es[..|es| - 1], es[|es| - 1];
      assert forall i :: 0 <= i < |init| ==> init[i] == es[i];
      var fs := PlansIn(init);
      ReadPlans(r, init);
      ReadLast(r, es);
      PlansAreNotes(init);
      StepPlans(Read(r, init), e, fs);
      assert PlansIn(es) == if e.update.Plan? then fs + [AsNote(e.update.todos)] else fs + [];
      assert fs + [] == fs;
    }
  }

  /** However often the agent revises its plan, the turn shows one plan card, with the last
      plan it sent. */
  lemma PlanShowsLatest(r: Reader, es: seq<Entry>, k: nat)
    requires CardsInOrder(r) && (r.pending.Some? ==> ShowsCall(r.pending.value.cards.blocks, PLAN_ID, []))
    requires forall i :: 0 <= i < |es| ==> IsWork(es[i]) && !Notes(es[i], PLAN_ID)
    requires k < |es| && es[k].Updated? && es[k].update.Plan?
    requires forall i :: k < i < |es| ==> !(es[i].Updated? && es[i].update.Plan?)
    ensures var f := CloseTurn(Read(r, es));
            f.turns != [] && ShowsPlan(f.turns[|f.turns| - 1].blocks, es[k].update.todos)
  {
    ReadPlans(r, es);
    PlansAreNotes(es);
    LastPlan(es, k);
    PlanCardShows(Read(r, es).pending.value.cards, PlansIn(es));
  }

  /** One plan card, and what it says. */
  predicate ShowsPlan(blocks: seq<Block>, todos: string) {
    && OneCardEach(blocks)
    && exists i :: 0 <= i < |blocks| && blocks[i] == ToolUse(PLAN_ID, "TodoWrite", Some(todos), None)
  }

  lemma PlanCardShows(c: Cards, fs: seq<CallFields>)
    requires Indexed(c) && ShowsCall(c.blocks, PLAN_ID, fs) && AllPlans(fs) && fs != []
    requires fs[|fs| - 1].input.Some?
    ensures ShowsPlan(c.blocks, fs[|fs| - 1].input.value)
  {
    IndexedIsOneEach(c);
    PlanCard(fs);
  }

  lemma {:induction false} LastPlan(es: seq<Entry>, k: nat)
    requires k < |es| && es[k].Updated? && es[k].update.Plan?
    requires forall i :: k < i < |es| ==> !(es[i].Updated? && es[i].update.Plan?)
    ensures PlansIn(es) != [] && PlansIn(es)[|PlansIn(es)| - 1] == AsNote(es[k].update.todos)
  {
    if k < |es| - 1 { LastPlan(es[..|es| - 1], k); }
  }

  // ---- A call that outlives its turn ---------------------------------------------------

  lemma LatestCardTurn(turns: seq<Turn>, reach: nat, id: string, i: nat)
    requires reach <= i < |turns| && HasUse(turns[i].blocks, id)
    requires forall k :: i < k < |turns| ==> !HasUse(turns[k].blocks, id)
    ensures ClosedCardTurn(turns, reach, id) == Some(i)
    decreases |turns|
  {
    var last := |turns| - 1;
    LastCardFound(turns[last].blocks, id, false);
    if last == i {
    } else {
      LatestCardTurn(turns[..last], reach, id, i);
    }
  }

  lemma PatchShows(turn: Turn, id: string, f: CallFields, fs: seq<CallFields>)
    requires OneCardEach(turn.blocks) && ShowsCall(turn.blocks, id, fs) && fs != []
    ensures ShowsCall(PatchClosedTurn(turn, id, f).blocks, id, fs + [f])
  {
    LastCardFound(turn.blocks, id, false);
    LastCardFound(turn.blocks, id, true);
    var use, res := LastCard(turn.blocks, id, false), LastCard(turn.blocks, id, true);
    CallShown(Cards(turn.blocks, if use.Some? then map[id := use.value] else map[],
                    if res.Some? then map[id := res.value] else map[]), id, f, fs);
  }

  lemma GoesBack(r: Reader, at: nat, id: string, f: CallFields, i: nat)
    requires CardsInOrder(r) && i < |r.turns| && HasUse(r.turns[i].blocks, id)
    requires r.pending.Some? ==> !HasUse(r.pending.value.cards.blocks, id)
    requires r.betweenTurns || (r.promptStart.Some? && r.promptStart.value <= i)
    requires forall k :: i < k < |r.turns| ==> !HasUse(r.turns[k].blocks, id)
    ensures OnToolCallUpdate(r, at, id, f) == r.(turns := r.turns[i := PatchClosedTurn(r.turns[i], id, f)])
  {
    LatestCardTurn(r.turns, if r.betweenTurns then 0 else r.promptStart.value, id, i);
  }

  lemma TrimLeavesBehind(r: Reader, i: nat, id: string)
    requires i < |r.turns| && r.turns[i].role.Assistant?
    requires forall k :: i < k < |r.turns| ==> !HasUse(r.turns[k].blocks, id)
    ensures var q := CloseProse(r);
            && |q.turns| == |r.turns| && q.turns[i] == r.turns[i]
            && forall k :: i < k < |q.turns| ==> !HasUse(q.turns[k].blocks, id)
  {
    forall k | i < k < |r.turns| ensures |CloseProse(r).turns| == |r.turns| && !HasUse(CloseProse(r).turns[k].blocks, id) {
      TrimAddsNoUse(r.turns, k, id);
    }
  }

  /** A call that reports back after its turn was closed, between turns or across a message
      delivered into its turn, completes the card that turn drew for it: no other turn, and
      nothing under construction, changes, but that a user's open prose is closed. */
  lemma LateUpdateGoesBack(r: Reader, e: Entry, i: nat, fs: seq<CallFields>)
    requires CardsInOrder(r) && e.Updated? && e.update.ToolCallUpdate? && i < |r.turns|
    requires r.pending.Some? ==> !HasUse(r.pending.value.cards.blocks, e.update.callId)
    requires r.betweenTurns || (r.promptStart.Some? && r.promptStart.value <= i)
    requires ShowsCall(r.turns[i].blocks, e.update.callId, fs) && fs != [] && r.turns[i].role.Assistant?
    requires forall k :: i < k < |r.turns| ==> !HasUse(r.turns[k].blocks, e.update.callId)
    ensures var f, q := Step(r, e), CloseProse(r);
            && f == q.(turns := f.turns) && |f.turns| == |r.turns|
            && (forall k :: 0 <= k < |f.turns| && k != i ==> f.turns[k] == q.turns[k])
            && f.turns[i] == r.turns[i].(blocks := f.turns[i].blocks)
            && ShowsCall(f.turns[i].blocks, e.update.callId, fs + [e.update.call])
  {
    var id, q := e.update.callId, CloseProse(r);
    var k :| 0 <= k < |r.turns[i].blocks| && r.turns[i].blocks[k] == UseCard(id, fs);
    assert HasUse(r.turns[i].blocks, id) by {
      assert r.turns[i].blocks[k].ToolUse? && r.turns[i].blocks[k].useId == id;
    }
    CloseKeepsCards(r);
    TrimLeavesBehind(r, i, id);
    GoesBack(q, e.t, id, e.update.call, i);
    PatchShows(r.turns[i], id, e.update.call, fs);
  }
}
