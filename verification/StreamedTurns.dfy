/** What a turn keeps of what was streamed into it, and what its closing leaves. */
module StreamedTurns {
  import opened Records
  import opened Projection
  import opened ToolCards
  import opened CallHistory
  import Whitespace

  // ---- Nothing streamed is lost or moved ----------------------------------------------

  function TextOf(b: Block): string { if b.Text? then b.text else "" }

  function ThoughtOf(b: Block): string { if b.Thinking? then b.text else "" }

  function ImageOf(b: Block): seq<string> { if b.Image? then [b.data] else [] }

  function Collected<T>(blocks: seq<Block>, part: Block -> seq<T>): seq<T> {
    if blocks == [] then [] else Collected(blocks[..|blocks| - 1], part) + part(blocks[|blocks| - 1])
  }

  lemma CollectedNext<T>(blocks: seq<Block>, b: Block, part: Block -> seq<T>)
    ensures Collected(blocks + [b], part) == Collected(blocks, part) + part(b)
  {
    assert (blocks + [b])[..|blocks|] == blocks;
  }

  lemma {:induction false} CollectedReplaced<T>(blocks: seq<Block>, i: nat, b: Block, part: Block -> seq<T>)
    requires i < |blocks| && part(b) == part(blocks[i])
    ensures Collected(blocks[i := b], part) == Collected(blocks, part)
    decreases |blocks|
  {
    var last := |blocks| - 1;
    if i < last {
      assert blocks[i := b][..last] == blocks[..last][i := b];
      CollectedReplaced(blocks[..last], i, b, part);
    } else {
      assert blocks[i := b][..last] == blocks[..last];
    }
  }

  lemma CollectedGrown<T>(blocks: seq<Block>, b: Block, part: Block -> seq<T>, more: seq<T>)
    requires blocks != [] && part(b) == part(blocks[|blocks| - 1]) + more
    ensures Collected(blocks[|blocks| - 1 := b], part) == Collected(blocks, part) + more
  {
    var last := |blocks| - 1;
    assert blocks[last := b][..last] == blocks[..last];
    assert Collected(blocks[..last], part) + (part(blocks[last]) + more)
           == (Collected(blocks[..last], part) + part(blocks[last])) + more;
  }

  /** What the open turn holds. */
  function OpenBlocks(r: Reader): seq<Block> {
    if r.pending.Some? then r.pending.value.cards.blocks else []
  }

  function ChunkSays(c: Content): string {
    if c.Plain? then c.text else if c.Other? then c.projected else ""
  }

  function SaidIn(e: Entry): string {
    if e.Updated? && e.update.AgentChunk? && e.update.kind.Message? then ChunkSays(e.update.content) else ""
  }

  function ThoughtIn(e: Entry): string {
    if e.Updated? && e.update.AgentChunk? && e.update.kind.Thought? then ChunkSays(e.update.content) else ""
  }

  /** The picture a message chunk carries; a thought shows none. */
  function ShownIn(e: Entry): seq<string> {
    if e.Updated? && e.update.AgentChunk? && e.update.kind.Message? && e.update.content.Picture? then
      [e.update.content.data]
    else []
  }

  function Streamed<T>(es: seq<Entry>, part: Entry -> seq<T>): seq<T> {
    if es == [] then [] else Streamed(es[..|es| - 1], part) + part(es[|es| - 1])
  }

  lemma PushKeeps(p: Pending, text: string, thinking: bool)
    ensures var was, now := p.cards.blocks, PushText(p, text, thinking).cards.blocks;
            && Collected(now, TextOf) == Collected(was, TextOf) + (if thinking then "" else text)
            && Collected(now, ThoughtOf) == Collected(was, ThoughtOf) + (if thinking then text else "")
            && Collected(now, ImageOf) == Collected(was, ImageOf)
  {
    var blocks := p.cards.blocks;
    var last := |blocks| - 1;
    if text != [] {
      if last >= 0 && !thinking && blocks[last].Text? {
        var b := Text(blocks[last].text + text);
        CollectedGrown(blocks, b, TextOf, text);
        CollectedReplaced(blocks, last, b, ThoughtOf);
        CollectedReplaced(blocks, last, b, ImageOf);
      } else if last >= 0 && thinking && blocks[last].Thinking? {
        var b := Thinking(blocks[last].text + text);
        CollectedGrown(blocks, b, ThoughtOf, text);
        CollectedReplaced(blocks, last, b, TextOf);
        CollectedReplaced(blocks, last, b, ImageOf);
      } else {
        var b := if thinking then Thinking(text) else Text(text);
        CollectedNext(blocks, b, TextOf);
        CollectedNext(blocks, b, ThoughtOf);
        CollectedNext(blocks, b, ImageOf);
      }
    }
  }

  /** An edit of cards: it replaces one by another for the same call, or adds one. */
  predicate EditsCards(was: seq<Block>, now: seq<Block>) {
    || now == was
    || (|now| == |was| && exists i :: 0 <= i < |was| && IsCard(was[i]) && SameCard(was[i], now[i])
                                      && now == was[i := now[i]])
    || (|now| == |was| + 1 && IsCard(now[|was|]) && now[..|was|] == was)
  }

  lemma CardsHoldNoText<T>(was: seq<Block>, now: seq<Block>, part: Block -> seq<T>)
    requires EditsCards(was, now) && forall b :: IsCard(b) ==> part(b) == []
    ensures Collected(now, part) == Collected(was, part)
  {
    if |now| == |was| + 1 {
      CollectedNext(was, now[|was|], part);
      assert now == was + [now[|was|]];
    } else if now != was {
      var i :| 0 <= i < |was| && IsCard(was[i]) && SameCard(was[i], now[i]) && now == was[i := now[i]];
      CollectedReplaced(was, i, now[i], part);
    }
  }

  lemma UseEdits(c: Cards, id: string, f: CallFields)
    ensures EditsCards(c.blocks, UpsertUse(c, id, f).blocks)
  {
    var now := UpsertUse(c, id, f).blocks;
    if id in c.uses && c.uses[id] < |c.blocks| && c.blocks[c.uses[id]].ToolUse? {
      var i := c.uses[id];
      assert now == c.blocks[i := now[i]];
    }
  }

  lemma ResultEdits(c: Cards, id: string, f: CallFields)
    ensures EditsCards(c.blocks, UpsertResult(c, id, f).blocks)
  {
    var now := UpsertResult(c, id, f).blocks;
    if id in c.results && c.results[id] < |c.blocks| && c.blocks[c.results[id]].ToolResult? {
      var i := c.results[id];
      assert now == c.blocks[i := now[i]];
    }
  }

  lemma PlanEdits(c: Cards, todos: string)
    ensures EditsCards(c.blocks, UpsertPlan(c, todos).blocks)
  {
    var now := UpsertPlan(c, todos).blocks;
    if PLAN_ID in c.uses && c.uses[PLAN_ID] < |c.blocks| && c.blocks[c.uses[PLAN_ID]].ToolUse? {
      var i := c.uses[PLAN_ID];
      assert now == c.blocks[i := now[i]];
    }
  }

  /** `now` holds what `was` held, in its places: cards are for the calls they were for, and
      prose that something followed is as it was. */
  predicate Stands(was: seq<Block>, now: seq<Block>) {
    && |was| <= |now|
    && (forall i :: 0 <= i < |was| ==> SameCard(was[i], now[i]))
    && (forall i :: 0 <= i < |was| - 1 && !IsCard(was[i]) ==> now[i] == was[i])
  }

  lemma EditStands(was: seq<Block>, now: seq<Block>)
    requires EditsCards(was, now)
    ensures Stands(was, now)
  {
  }

  /** Everything a step of the agent's work streams, and what stood before it. */
  predicate Keeps(was: seq<Block>, now: seq<Block>, text: string, thought: string, images: seq<string>) {
    && Stands(was, now)
    && Collected(now, TextOf) == Collected(was, TextOf) + text
    && Collected(now, ThoughtOf) == Collected(was, ThoughtOf) + thought
    && Collected(now, ImageOf) == Collected(was, ImageOf) + images
  }

  lemma EditKeeps(was: seq<Block>, now: seq<Block>)
    requires EditsCards(was, now)
    ensures Keeps(was, now, "", "", [])
  {
    EditStands(was, now);
    CardsHoldNoText(was, now, TextOf);
    CardsHoldNoText(was, now, ThoughtOf);
    CardsHoldNoText(was, now, ImageOf);
  }

  lemma CallKeeps(c: Cards, id: string, f: CallFields)
    ensures Keeps(c.blocks, UpsertCall(c, id, f).blocks, "", "", [])
  {
    UseEdits(c, id, f);
    EditKeeps(c.blocks, UpsertUse(c, id, f).blocks);
    ResultEdits(UpsertUse(c, id, f), id, f);
    EditKeeps(UpsertUse(c, id, f).blocks, UpsertCall(c, id, f).blocks);
    KeepsMore(c.blocks, UpsertUse(c, id, f).blocks, UpsertCall(c, id, f).blocks, "", "", [], "", "", []);
  }

  lemma PushStands(p: Pending, text: string, thinking: bool)
    ensures Stands(p.cards.blocks, PushText(p, text, thinking).cards.blocks)
  {
  }

  lemma PictureKeeps(blocks: seq<Block>, data: string)
    ensures Keeps(blocks, blocks + [Image(data)], "", "", [data])
  {
    CollectedNext(blocks, Image(data), TextOf);
    CollectedNext(blocks, Image(data), ThoughtOf);
    CollectedNext(blocks, Image(data), ImageOf);
  }

  lemma TextKeeps(p: Pending, text: string, thinking: bool)
    ensures Keeps(p.cards.blocks, PushText(p, text, thinking).cards.blocks,
                  if thinking then "" else text, if thinking then text else "", [])
  {
    PushKeeps(p, text, thinking);
    PushStands(p, text, thinking);
  }

  lemma ChunkKeeps(r: Reader, e: Entry)
    requires e.Updated? && e.update.AgentChunk?
    ensures Keeps(OpenBlocks(r), OpenBlocks(OnAgentChunk(r, e.t, e.update.kind, e.update.content)),
                  SaidIn(e), ThoughtIn(e), ShownIn(e))
  {
    var kind, c, p := e.update.kind, e.update.content, OpenTurn(r, e.t).pending.value;
    assert p.cards.blocks == OpenBlocks(r);
    if kind.Message? && c.Picture? {
      PictureKeeps(OpenBlocks(r), c.data);
    } else {
      TextKeeps(p, ChunkText(c), kind.Thought?);
    }
  }

  lemma OpensCall(r: Reader, at: nat, id: string, f: CallFields)
    ensures Keeps(OpenBlocks(r), OpenBlocks(InOpenTurn(r, at, c => UpsertCall(c, id, f))), "", "", [])
  {
    CallKeeps(OpenTurn(r, at).pending.value.cards, id, f);
  }

  lemma UpdateKeeps(r: Reader, at: nat, id: string, f: CallFields)
    ensures Keeps(OpenBlocks(r), OpenBlocks(OnToolCallUpdate(r, at, id, f)), "", "", [])
  {
    OpensCall(r, at, id, f);
    EditKeeps(OpenBlocks(r), OpenBlocks(r));
  }

  lemma PlanKeeps(r: Reader, at: nat, todos: string)
    ensures Keeps(OpenBlocks(r), OpenBlocks(InOpenTurn(r, at, c => UpsertPlan(c, todos))), "", "", [])
  {
    var c := OpenTurn(r, at).pending.value.cards;
    PlanEdits(c, todos);
    EditKeeps(c.blocks, UpsertPlan(c, todos).blocks);
  }

  lemma StepKeeps(r: Reader, e: Entry)
    requires IsWork(e)
    ensures Keeps(OpenBlocks(r), OpenBlocks(Step(r, e)), SaidIn(e), ThoughtIn(e), ShownIn(e))
  {
    var q := CloseProse(r);
    assert OpenBlocks(q) == OpenBlocks(r);
    match e.update
    case AgentChunk(kind, content, meta) => ChunkKeeps(q, e);
    case ToolCall(id, f) => OpensCall(q, e.t, id, f);
    case ToolCallUpdate(id, f) => UpdateKeeps(q, e.t, id, f);
    case Plan(todos) => PlanKeeps(q, e.t, todos);
    case UsageUpdate(_, _) => EditKeeps(OpenBlocks(r), OpenBlocks(r));
  }

  lemma KeepsMore(a: seq<Block>, b: seq<Block>, c: seq<Block>, text: string, thought: string, images: seq<string>,
                  moreText: string, moreThought: string, moreImages: seq<string>)
    requires Keeps(a, b, text, thought, images) && Keeps(b, c, moreText, moreThought, moreImages)
    ensures Keeps(a, c, text + moreText, thought + moreThought, images + moreImages)
  {
    AssociateConcat(Collected(a, TextOf), text, moreText);
    AssociateConcat(Collected(a, ThoughtOf), thought, moreThought);
    AssociateConcat(Collected(a, ImageOf), images, moreImages);
  }

  /** Nothing the agent streams into a turn is lost, doubled or moved: over any run of its work
      the turn gains exactly the message text, the thoughts and the pictures of its chunks,
      each in order; cards stay where they are, and so does prose that anything followed. */
  lemma {:induction false} NothingStreamedIsLost(r: Reader, es: seq<Entry>)
    requires forall i :: 0 <= i < |es| ==> IsWork(es[i])
    ensures Keeps(OpenBlocks(r), OpenBlocks(Read(r, es)), Streamed(es, SaidIn), Streamed(es, ThoughtIn),
                  Streamed(es, ShownIn))
    decreases |es|
  {
    if es == [] {
      EditKeeps(OpenBlocks(r), OpenBlocks(r));
    } else {
      var init, e := es[..|es| - 1], es[|es| - 1];
      assert forall i :: 0 <= i < |init| ==> init[i] == es[i];
      NothingStreamedIsLost(r, init);
      ReadLast(r, es);
      var before := Read(r, init);
      StepKeeps(before, e);
      KeepsMore(OpenBlocks(r), OpenBlocks(before), OpenBlocks(Read(r, es)), Streamed(init, SaidIn),
                Streamed(init, ThoughtIn), Streamed(init, ShownIn), SaidIn(e), ThoughtIn(e), ShownIn(e));
    }
  }

  // ---- Numbered turns, none of them empty ----------------------------------------------

  predicate Numbered(turns: seq<Turn>) {
    forall i :: 0 <= i < |turns| ==> turns[i].id == i && turns[i].blocks != []
  }

  /** The reader's turns are numbered from zero and hold something, and the open turn knows
      whether it does. */
  predicate WellRead(r: Reader) {
    && Numbered(r.turns) && r.nextId == |r.turns|
    && (r.pending.Some? ==> (r.pending.value.hasContent <==> r.pending.value.cards.blocks != []))
  }

  lemma AddedNumbered(turns: seq<Turn>, turn: Turn)
    requires Numbered(turns) && turn.id == |turns| && turn.blocks != []
    ensures Numbered(turns + [turn])
  {
  }

  lemma ReplacedNumbered(turns: seq<Turn>, i: nat, turn: Turn)
    requires Numbered(turns) && i < |turns| && turn.id == i && turn.blocks != []
    ensures Numbered(turns[i := turn])
  {
  }

  lemma CloseTurnWellRead(r: Reader)
    requires WellRead(r)
    ensures WellRead(CloseTurn(r))
  {
  }

  lemma CloseProseWellRead(r: Reader)
    requires WellRead(r)
    ensures WellRead(CloseProse(r))
  {
  }

  lemma PatchStaysFull(turn: Turn, id: string, f: CallFields)
    requires turn.blocks != []
    ensures PatchClosedTurn(turn, id, f).blocks != [] && PatchClosedTurn(turn, id, f).id == turn.id
  {
    var use, res := LastCard(turn.blocks, id, false), LastCard(turn.blocks, id, true);
    CallKeeps(Cards(turn.blocks, if use.Some? then map[id := use.value] else map[],
                    if res.Some? then map[id := res.value] else map[]), id, f);
  }

  lemma CallFills(c: Cards, id: string, f: CallFields)
    requires Indexed(c)
    ensures UpsertCall(c, id, f).blocks != []
  {
    UseEdits(c, id, f);
    EditKeeps(c.blocks, UpsertUse(c, id, f).blocks);
    ResultEdits(UpsertUse(c, id, f), id, f);
    EditKeeps(UpsertUse(c, id, f).blocks, UpsertCall(c, id, f).blocks);
  }

  lemma CallWellRead(r: Reader, at: nat, id: string, f: CallFields)
    requires WellRead(r) && CardsInOrder(r)
    ensures WellRead(InOpenTurn(r, at, c => UpsertCall(c, id, f)))
  {
    CallFills(OpenTurn(r, at).pending.value.cards, id, f);
  }

  lemma PatchNumbered(turns: seq<Turn>, reach: nat, id: string, f: CallFields)
    requires Numbered(turns)
    ensures var i := ClosedCardTurn(turns, reach, id);
            i.Some? ==> Numbered(turns[i.value := PatchClosedTurn(turns[i.value], id, f)])
  {
    var i := ClosedCardTurn(turns, reach, id);
    if i.Some? {
      PatchStaysFull(turns[i.value], id, f);
      ReplacedNumbered(turns, i.value, PatchClosedTurn(turns[i.value], id, f));
    }
  }

  lemma UpdateWellRead(r: Reader, at: nat, id: string, f: CallFields)
    requires WellRead(r) && CardsInOrder(r)
    ensures WellRead(OnToolCallUpdate(r, at, id, f))
  {
    CallWellRead(r, at, id, f);
    var reach := if r.betweenTurns then Some(0) else r.promptStart;
    if reach.Some? { PatchNumbered(r.turns, reach.value, id, f); }
  }

  lemma ChunkWellRead(r: Reader, at: nat, kind: ChunkKind, c: Content)
    requires WellRead(r)
    ensures WellRead(OnAgentChunk(r, at, kind, c))
  {
  }

  lemma WorkWellRead(r: Reader, e: Entry)
    requires WellRead(r) && CardsInOrder(r) && IsWork(e)
    ensures WellRead(Step(r, e))
  {
    CloseProseWellRead(r);
    CloseKeepsCards(r);
    var q := CloseProse(r);
    match e.update
    case AgentChunk(kind, content, _) => ChunkWellRead(q, e.t, kind, content);
    case ToolCall(id, f) => CallWellRead(q, e.t, id, f);
    case ToolCallUpdate(id, f) => UpdateWellRead(q, e.t, id, f);
    case Plan(todos) =>
    case UsageUpdate(_, _) =>
  }

  lemma UserTurnWellRead(r: Reader, blocks: seq<Block>, at: nat)
    requires WellRead(r) && blocks != []
    ensures WellRead(PushUserTurn(r, blocks, at))
  {
    AddedNumbered(r.turns, Turn(r.nextId, User, blocks, at, None, None, None, None));
  }

  lemma PromptWellRead(r: Reader, e: Entry)
    requires WellRead(r) && e.Prompt?
    ensures WellRead(OnPrompt(r, e))
  {
    CloseProseWellRead(r);
    var c := CloseProse(r).(betweenTurns := false);
    CloseTurnWellRead(c);
    var d := CloseTurn(c);
    var f := if e.steer then d.(steered := true) else d.(steered := false, promptStart := Some(|d.turns|));
    assert WellRead(f);
    if e.blocks != [] { UserTurnWellRead(f, e.blocks, e.t); }
  }

  lemma TurnEndWellRead(r: Reader, e: Entry)
    requires WellRead(r) && e.TurnEnd?
    ensures WellRead(OnTurnEnd(r, e))
  {
    CloseProseWellRead(r);
  }

  lemma UserBlockWellRead(r: Reader, at: nat, b: Block, coalesce: bool)
    requires WellRead(r)
    ensures WellRead(AddUserBlock(r, at, b, coalesce))
  {
    var last := |r.turns| - 1;
    if last >= 0 && r.turns[last].role.User? {
      var f := AddUserBlock(r, at, b, coalesce);
      assert f.turns == r.turns[last := f.turns[last]];
      ReplacedNumbered(r.turns, last, f.turns[last]);
    } else {
      UserTurnWellRead(r, [b], at);
    }
  }

  lemma UserChunkWellRead(r: Reader, at: nat, isText: bool, visible: Option<Block>)
    requires WellRead(r)
    ensures WellRead(OnUserChunk(r, at, isText, visible))
  {
    CloseTurnWellRead(r);
    if visible.Some? {
      UserBlockWellRead(CloseTurn(r).(startHint := Some(at)), at, visible.value, isText && r.proseOpen);
    }
  }

  lemma StepWellRead(r: Reader, e: Entry)
    requires WellRead(r) && CardsInOrder(r)
    ensures WellRead(Step(r, e))
  {
    match e
    case Prompt(_, _, _) => PromptWellRead(r, e);
    case TurnEnd(_, _, _, _) => TurnEndWellRead(r, e);
    case Updated(at, u) =>
      if u.UserChunk? {
        CloseProseWellRead(r);
        UserChunkWellRead(if u.wireText then r else CloseProse(r), at, u.wireText, u.visible);
      } else {
        WorkWellRead(r, e);
      }
  }

  lemma {:induction false} ReadWellRead(r: Reader, es: seq<Entry>)
    requires WellRead(r) && CardsInOrder(r) && forall i :: 0 <= i < |es| ==> CardFree(es[i])
    ensures WellRead(Read(r, es))
    decreases |es|
  {
    if es != [] {
      assert CardFree(es[0]);
      StepKeepsCards(r, es[0]);
      StepWellRead(r, es[0]);
      ReadWellRead(Step(r, es[0]), es[1..]);
    }
  }

  /** Turns are numbered in order with no number skipped, and none is empty: a reply that
      streamed nothing to show leaves no turn. */
  lemma TurnsAreNumbered(es: seq<Entry>, i: nat)
    requires forall k :: 0 <= k < |es| ==> CardFree(es[k])
    requires i < |Project(es)|
    ensures Project(es)[i].id == i && Project(es)[i].blocks != []
  {
    ReadWellRead(START, es);
    CloseTurnWellRead(Read(START, es));
    CloseProseWellRead(CloseTurn(Read(START, es)));
  }
}
