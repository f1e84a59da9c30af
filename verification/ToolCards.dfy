/** What the history view shows of tool calls, plans and streamed text inside a turn. */
module ToolCards {
  import opened Records
  import opened Projection
  import Whitespace

  // ---- One card per call -------------------------------------------------------------

  predicate IsCard(b: Block) { b.ToolUse? || b.ToolResult? }

  /** No two cards of one kind for the same call. */
  predicate OneCardEach(blocks: seq<Block>) {
    && (forall i, j :: 0 <= i < j < |blocks| && blocks[i].ToolUse? && blocks[j].ToolUse? ==>
          blocks[i].useId != blocks[j].useId)
    && (forall i, j :: 0 <= i < j < |blocks| && blocks[i].ToolResult? && blocks[j].ToolResult? ==>
          blocks[i].resultId != blocks[j].resultId)
  }

  predicate UsesIndexed(blocks: seq<Block>, uses: map<string, nat>) {
    && (forall id <- uses :: uses[id] < |blocks| && blocks[uses[id]].ToolUse? && blocks[uses[id]].useId == id)
    && (forall i :: 0 <= i < |blocks| && blocks[i].ToolUse? ==>
          blocks[i].useId in uses && uses[blocks[i].useId] == i)
  }

  predicate ResultsIndexed(blocks: seq<Block>, results: map<string, nat>) {
    && (forall id <- results :: results[id] < |blocks| && blocks[results[id]].ToolResult?
                                && blocks[results[id]].resultId == id)
    && (forall i :: 0 <= i < |blocks| && blocks[i].ToolResult? ==>
          blocks[i].resultId in results && results[blocks[i].resultId] == i)
  }

  /** The index of an open turn: where each call's cards sit, and no card it does not know. */
  predicate Indexed(c: Cards) {
    UsesIndexed(c.blocks, c.uses) && ResultsIndexed(c.blocks, c.results)
  }

  /** The same block to an index: of one kind, and for one call if it is a card. */
  predicate SameCard(a: Block, b: Block) {
    && (a.ToolUse? <==> b.ToolUse?) && (a.ToolUse? ==> a.useId == b.useId)
    && (a.ToolResult? <==> b.ToolResult?) && (a.ToolResult? ==> a.resultId == b.resultId)
  }

  lemma ReplaceIndexed(c: Cards, i: nat, b: Block)
    requires Indexed(c) && i < |c.blocks| && SameCard(c.blocks[i], b)
    ensures Indexed(c.(blocks := c.blocks[i := b]))
  {
    assert forall k :: 0 <= k < |c.blocks| ==> SameCard(c.blocks[k], c.blocks[i := b][k]);
  }

  lemma AppendIndexed(c: Cards, b: Block)
    requires Indexed(c) && !IsCard(b)
    ensures Indexed(c.(blocks := c.blocks + [b]))
  {
  }

  lemma AppendUseIndexed(c: Cards, id: string, b: Block)
    requires Indexed(c) && b.ToolUse? && b.useId == id && id !in c.uses
    ensures Indexed(c.(blocks := c.blocks + [b], uses := c.uses[id := |c.blocks|]))
  {
  }

  lemma AppendResultIndexed(c: Cards, id: string, b: Block)
    requires Indexed(c) && b.ToolResult? && b.resultId == id && id !in c.results
    ensures Indexed(c.(blocks := c.blocks + [b], results := c.results[id := |c.blocks|]))
  {
  }

  lemma PushTextIndexed(p: Pending, text: string, thinking: bool)
    requires Indexed(p.cards)
    ensures Indexed(PushText(p, text, thinking).cards)
  {
    var blocks := p.cards.blocks;
    var last := |blocks| - 1;
    if text != [] {
      if last >= 0 && !thinking && blocks[last].Text? {
        ReplaceIndexed(p.cards, last, Text(blocks[last].text + text));
      } else if last >= 0 && thinking && blocks[last].Thinking? {
        ReplaceIndexed(p.cards, last, Thinking(blocks[last].text + text));
      } else {
        AppendIndexed(p.cards, if thinking then Thinking(text) else Text(text));
      }
    }
  }

  lemma UpsertIndexed(c: Cards, id: string, f: CallFields)
    requires Indexed(c)
    ensures Indexed(UpsertCall(c, id, f))
  {
    UseUpsertIndexed(c, id, f);
    ResultUpsertIndexed(UpsertUse(c, id, f), id, f);
  }

  lemma UseUpsertIndexed(c: Cards, id: string, f: CallFields)
    requires Indexed(c)
    ensures Indexed(UpsertUse(c, id, f))
  {
    if id in c.uses {
      ReplaceIndexed(c, c.uses[id], PatchUse(c.blocks[c.uses[id]], f));
    } else {
      var name := if f.title.Some? then f.title.value else "tool";
      AppendUseIndexed(c, id, ToolUse(id, name, f.input, f.meta));
    }
  }

  lemma ResultUpsertIndexed(c: Cards, id: string, f: CallFields)
    requires Indexed(c)
    ensures Indexed(UpsertResult(c, id, f))
  {
    if id in c.results {
      ReplaceIndexed(c, c.results[id], PatchResult(c.blocks[c.results[id]], f));
    } else {
      AppendResultIndexed(c, id, ToolResult(id, f.output, f.failed, f.images));
    }
  }

  lemma PlanIndexed(c: Cards, todos: string)
    requires Indexed(c)
    ensures Indexed(UpsertPlan(c, todos))
  {
    if PLAN_ID in c.uses {
      ReplaceIndexed(c, c.uses[PLAN_ID], c.blocks[c.uses[PLAN_ID]].(input := Some(todos)));
    } else {
      AppendUseIndexed(c, PLAN_ID, ToolUse(PLAN_ID, "TodoWrite", Some(todos), None));
    }
  }

  predicate TurnsInOrder(turns: seq<Turn>) {
    forall i :: 0 <= i < |turns| ==> OneCardEach(turns[i].blocks)
  }

  predicate CardsInOrder(r: Reader) {
    && TurnsInOrder(r.turns)
    && (r.pending.Some? ==> Indexed(r.pending.value.cards))
  }

  lemma {:induction false} LastCardFound(blocks: seq<Block>, id: string, result: bool)
    ensures var i := LastCard(blocks, id, result);
            && (i.Some? ==> if result then blocks[i.value].ToolResult? && blocks[i.value].resultId == id
                            else blocks[i.value].ToolUse? && blocks[i.value].useId == id)
            && (i.None? ==> forall k :: 0 <= k < |blocks| ==>
                              if result then blocks[k].ToolResult? ==> blocks[k].resultId != id
                              else blocks[k].ToolUse? ==> blocks[k].useId != id)
  {
    if blocks != [] { LastCardFound(blocks[..|blocks| - 1], id, result); }
  }

  lemma PatchKeepsOneEach(turn: Turn, id: string, f: CallFields)
    requires OneCardEach(turn.blocks) && LastCard(turn.blocks, id, false).Some?
    ensures OneCardEach(PatchClosedTurn(turn, id, f).blocks)
  {
    LastCardFound(turn.blocks, id, false);
    LastCardFound(turn.blocks, id, true);
  }

  lemma {:induction false} ClosedTurnFound(turns: seq<Turn>, reach: nat, id: string)
    ensures var i := ClosedCardTurn(turns, reach, id);
            i.Some? ==> reach <= i.value && LastCard(turns[i.value].blocks, id, false).Some?
  {
    if reach < |turns| { ClosedTurnFound(turns[..|turns| - 1], reach, id); }
  }

  lemma IndexedIsOneEach(c: Cards)
    requires Indexed(c)
    ensures OneCardEach(c.blocks)
  {
  }

  lemma TurnAdded(turns: seq<Turn>, turn: Turn)
    requires TurnsInOrder(turns) && OneCardEach(turn.blocks)
    ensures TurnsInOrder(turns + [turn])
  {
  }

  lemma TurnReplaced(turns: seq<Turn>, i: nat, turn: Turn)
    requires TurnsInOrder(turns) && i < |turns| && OneCardEach(turn.blocks)
    ensures TurnsInOrder(turns[i := turn])
  {
  }

  lemma BlockAdded(blocks: seq<Block>, b: Block)
    requires OneCardEach(blocks) && !IsCard(b)
    ensures OneCardEach(blocks + [b])
  {
  }

  lemma BlockReplaced(blocks: seq<Block>, i: nat, b: Block)
    requires OneCardEach(blocks) && i < |blocks| && !IsCard(b)
    ensures OneCardEach(blocks[i := b])
  {
  }

  lemma TrimKeepsCards(turns: seq<Turn>)
    requires TurnsInOrder(turns)
    ensures TurnsInOrder(TrimOpenProse(turns))
  {
    var last := |turns| - 1;
    if last >= 0 && turns[last].role.User? && turns[last].blocks != [] {
      var blocks := turns[last].blocks;
      var end := |blocks| - 1;
      if blocks[end].Text? {
        BlockReplaced(blocks, end, Text(Whitespace.Trim(blocks[end].text)));
      }
    }
  }

  lemma CloseKeepsCards(r: Reader)
    requires CardsInOrder(r)
    ensures CardsInOrder(CloseTurn(r)) && CardsInOrder(CloseProse(r))
  {
    if r.pending.Some? { IndexedIsOneEach(r.pending.value.cards); }
    TrimKeepsCards(r.turns);
  }

  /** What a prompt and a user chunk can hold: text, images, attachments. */
  predicate CardFree(e: Entry) {
    match e
    case Prompt(_, blocks, _) => forall b <- blocks :: !IsCard(b)
    case Updated(_, UserChunk(_, visible)) => visible.Some? ==> !IsCard(visible.value)
    case _ => true
  }

  lemma PromptKeepsCards(r: Reader, e: Entry)
    requires CardsInOrder(r) && e.Prompt? && CardFree(e)
    ensures CardsInOrder(OnPrompt(r, e))
  {
    CloseKeepsCards(r);
    var c := CloseProse(r).(betweenTurns := false);
    CloseKeepsCards(c);
    assert OneCardEach(e.blocks) by { assert forall k :: 0 <= k < |e.blocks| ==> e.blocks[k] in e.blocks; }
    TurnAdded(CloseTurn(c).turns, Turn(CloseTurn(c).nextId, User, e.blocks, e.t, None, None, None, None));
  }

  lemma TurnEndKeepsCards(r: Reader, e: Entry)
    requires CardsInOrder(r) && e.TurnEnd?
    ensures CardsInOrder(OnTurnEnd(r, e))
  {
    CloseKeepsCards(r);
    var c := CloseProse(r);
    if c.pending.Some? { IndexedIsOneEach(c.pending.value.cards); }
  }

  lemma UserBlockKeepsCards(r: Reader, at: nat, b: Block, coalesce: bool)
    requires TurnsInOrder(r.turns) && !IsCard(b)
    ensures TurnsInOrder(AddUserBlock(r, at, b, coalesce).turns)
  {
    var last := |r.turns| - 1;
    if last >= 0 && r.turns[last].role.User? {
      var blocks := r.turns[last].blocks;
      var end := |blocks| - 1;
      BlockAdded(blocks, b);
      if end >= 0 && blocks[end].Text? && b.Text? { BlockReplaced(blocks, end, Text(blocks[end].text + b.text)); }
    } else {
      BlockAdded([], b);
      TurnAdded(r.turns, Turn(r.nextId, User, [b], at, None, None, None, None));
    }
  }

  lemma UserChunkKeepsCards(r: Reader, at: nat, isText: bool, visible: Option<Block>)
    requires CardsInOrder(r) && (visible.Some? ==> !IsCard(visible.value))
    ensures CardsInOrder(OnUserChunk(r, at, isText, visible))
  {
    CloseKeepsCards(r);
    if visible.Some? {
      UserBlockKeepsCards(CloseTurn(r).(startHint := Some(at)), at, visible.value, isText && r.proseOpen);
    }
  }

  lemma CallOpensInOrder(r: Reader, at: nat, id: string, f: CallFields)
    requires CardsInOrder(r)
    ensures CardsInOrder(InOpenTurn(r, at, c => UpsertCall(c, id, f)))
  {
    UpsertIndexed(OpenTurn(r, at).pending.value.cards, id, f);
  }

  lemma PatchInOrder(r: Reader, reach: nat, id: string, f: CallFields)
    requires CardsInOrder(r)
    ensures var i := ClosedCardTurn(r.turns, reach, id);
            i.Some? ==> TurnsInOrder(r.turns[i.value := PatchClosedTurn(r.turns[i.value], id, f)])
  {
    ClosedTurnFound(r.turns, reach, id);
    var i := ClosedCardTurn(r.turns, reach, id);
    if i.Some? {
      PatchKeepsOneEach(r.turns[i.value], id, f);
      TurnReplaced(r.turns, i.value, PatchClosedTurn(r.turns[i.value], id, f));
    }
  }

  lemma CallKeepsCards(r: Reader, at: nat, id: string, f: CallFields)
    requires CardsInOrder(r)
    ensures CardsInOrder(OnToolCallUpdate(r, at, id, f))
  {
    var reach := if r.betweenTurns then Some(0) else r.promptStart;
    if reach.Some? { PatchInOrder(r, reach.value, id, f); }
    CallOpensInOrder(r, at, id, f);
  }

  lemma AgentChunkKeepsCards(r: Reader, at: nat, kind: ChunkKind, c: Content)
    requires CardsInOrder(r)
    ensures CardsInOrder(OnAgentChunk(r, at, kind, c))
  {
    var p := OpenTurn(r, at).pending.value;
    if kind.Message? && c.Picture? {
      AppendIndexed(p.cards, Image(c.data));
    } else {
      PushTextIndexed(p, ChunkText(c), kind.Thought?);
    }
  }

  lemma StepKeepsCards(r: Reader, e: Entry)
    requires CardsInOrder(r) && CardFree(e)
    ensures CardsInOrder(Step(r, e))
  {
    CloseKeepsCards(r);
    match e
    case Prompt(_, _, _) => PromptKeepsCards(r, e);
    case TurnEnd(_, _, _, _) => TurnEndKeepsCards(r, e);
    case Updated(at, u) =>
      var q := if u.UserChunk? && u.wireText then r else CloseProse(r);
      match u
      case UserChunk(isText, visible) => UserChunkKeepsCards(q, at, isText, visible);
      case AgentChunk(kind, content, _) => AgentChunkKeepsCards(q, at, kind, content);
      case ToolCall(id, f) => CallOpensInOrder(q, at, id, f);
      case ToolCallUpdate(id, f) => CallKeepsCards(q, at, id, f);
      case Plan(todos) => PlanIndexed(OpenTurn(q, at).pending.value.cards, todos);
      case UsageUpdate(_, _) =>
  }

  lemma {:induction false} ReadKeepsCards(r: Reader, es: seq<Entry>)
    requires CardsInOrder(r) && forall i :: 0 <= i < |es| ==> CardFree(es[i])
    ensures CardsInOrder(Read(r, es))
    decreases |es|
  {
    if es != [] {
      assert CardFree(es[0]);
      StepKeepsCards(r, es[0]);
      ReadKeepsCards(Step(r, es[0]), es[1..]);
    }
  }

  /** Whatever was recorded, and however late a call's updates come, no turn shows two cards
      of one kind for the same call. */
  lemma OneCardPerCall(es: seq<Entry>, i: nat)
    requires forall k :: 0 <= k < |es| ==> CardFree(es[k])
    requires i < |Project(es)|
    ensures OneCardEach(Project(es)[i].blocks)
  {
    ReadKeepsCards(START, es);
    CloseKeepsCards(Read(START, es));
    CloseKeepsCards(CloseTurn(Read(START, es)));
  }
}
