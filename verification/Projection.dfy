/** The history reader: projects recorded entries into turns. A model of
    `project_turns` with the helpers it runs each entry through. */
module Projection {
  import opened Records
  import Whitespace

  datatype Role = User | Assistant

  datatype Turn = Turn(
    id: nat,
    role: Role,
    blocks: seq<Block>,
    timestamp: nat,
    usage: Option<Usage>,
    durationMs: Option<nat>,
    model: Option<string>,
    completedAt: Option<nat>)

  /** A turn's tool cards: its blocks and where each call's two blocks sit among them. */
  datatype Cards = Cards(blocks: seq<Block>, uses: map<string, nat>, results: map<string, nat>)

  /** The assistant turn under construction. */
  datatype Pending = Pending(
    cards: Cards,
    startedAt: nat,
    lastAt: nat,
    usage: Option<Usage>,
    durationMs: Option<nat>,
    model: Option<string>,
    hasContent: bool)

  /** Everything the reader carries from one entry to the next. */
  datatype Reader = Reader(
    turns: seq<Turn>,
    pending: Option<Pending>,
    nextId: nat,
    promptJustRecorded: bool,
    startHint: Option<nat>,
    proseOpen: bool,
    betweenTurns: bool,
    promptStart: Option<nat>,
    steered: bool)

  const START := Reader([], None, 0, false, None, false, false, None, false)

  function NewPending(at: nat): Pending {
    Pending(Cards([], map[], map[]), at, at, None, None, None, false)
  }

  /** Append streamed text, coalescing with a trailing block of the same kind. */
  function PushText(p: Pending, text: string, thinking: bool): Pending {
    if text == [] then p
    else
      var blocks := p.cards.blocks;
      var last := |blocks| - 1;
      var pushed :=
        if last >= 0 && !thinking && blocks[last].Text? then
          blocks[last := Text(blocks[last].text + text)]
        else if last >= 0 && thinking && blocks[last].Thinking? then
          blocks[last := Thinking(blocks[last].text + text)]
        else blocks + [if thinking then Thinking(text) else Text(text)];
      p.(cards := p.cards.(blocks := pushed), hasContent := true)
  }

  function PatchUse(b: Block, f: CallFields): Block
    requires b.ToolUse?
  {
    ToolUse(b.useId,
            if f.title.Some? && f.title.value != [] then f.title.value else b.name,
            if f.input.Some? then f.input else b.input,
            if f.meta.Some? then f.meta else b.meta)
  }

  function PatchResult(b: Block, f: CallFields): Block
    requires b.ToolResult?
  {
    ToolResult(b.resultId, if f.output.Some? then f.output else b.output, f.failed,
               if f.images != [] then f.images else b.images)
  }

  /** Insert or patch a call's `ToolUse`. */
  function UpsertUse(c: Cards, id: string, f: CallFields): Cards {
    if id in c.uses then
      var i := c.uses[id];
      if i < |c.blocks| && c.blocks[i].ToolUse? then c.(blocks := c.blocks[i := PatchUse(c.blocks[i], f)]) else c
    else
      var name := if f.title.Some? then f.title.value else "tool";
      c.(blocks := c.blocks + [ToolUse(id, name, f.input, f.meta)], uses := c.uses[id := |c.blocks|])
  }

  /** Insert or patch a call's `ToolResult`, once it has output. */
  function UpsertResult(c: Cards, id: string, f: CallFields): Cards {
    if f.output.None? && f.images == [] && !f.failed then c
    else if id in c.results then
      var i := c.results[id];
      if i < |c.blocks| && c.blocks[i].ToolResult? then c.(blocks := c.blocks[i := PatchResult(c.blocks[i], f)]) else c
    else
      c.(blocks := c.blocks + [ToolResult(id, f.output, f.failed, f.images)], results := c.results[id := |c.blocks|])
  }

  function UpsertCall(c: Cards, id: string, f: CallFields): Cards {
    UpsertResult(UpsertUse(c, id, f), id, f)
  }

  const PLAN_ID := "acp-plan"

  /** Each plan update replaces the previous plan card's input. */
  function UpsertPlan(c: Cards, todos: string): Cards {
    if PLAN_ID in c.uses then
      var i := c.uses[PLAN_ID];
      if i < |c.blocks| && c.blocks[i].ToolUse? then
        c.(blocks := c.blocks[i := c.blocks[i].(input := Some(todos))])
      else c
    else
      c.(blocks := c.blocks + [ToolUse(PLAN_ID, "TodoWrite", Some(todos), None)],
         uses := c.uses[PLAN_ID := |c.blocks|])
  }

  /** The last of a closed turn's blocks that is `id`'s use (or result) card. */
  function LastCard(blocks: seq<Block>, id: string, result: bool): (i: Option<nat>)
    ensures i.Some? ==> i.value < |blocks|
  {
    if blocks == [] then None
    else
      var last := |blocks| - 1;
      var b := blocks[last];
      if (if result then b.ToolResult? && b.resultId == id else b.ToolUse? && b.useId == id) then Some(last)
      else LastCard(blocks[..last], id, result)
  }

  /** The latest turn at or after `reach` that holds a card for `id`. */
  function ClosedCardTurn(turns: seq<Turn>, reach: nat, id: string): (i: Option<nat>)
    ensures i.Some? ==> i.value < |turns|
  {
    if |turns| <= reach then None
    else
      var last := |turns| - 1;
      if LastCard(turns[last].blocks, id, false).Some? then Some(last)
      else ClosedCardTurn(turns[..last], reach, id)
  }

  function PatchClosedTurn(turn: Turn, id: string, f: CallFields): Turn {
    var use, res := LastCard(turn.blocks, id, false), LastCard(turn.blocks, id, true);
    var cards := Cards(turn.blocks,
                       if use.Some? then map[id := use.value] else map[],
                       if res.Some? then map[id := res.value] else map[]);
    turn.(blocks := UpsertCall(cards, id, f).blocks)
  }

  /** Close the turn under construction; one without content leaves no turn. */
  function CloseTurn(r: Reader): (f: Reader)
    ensures f.pending.None?
  {
    match r.pending
    case None => r
    case Some(p) =>
      var closed := r.(pending := None);
      if !p.hasContent then closed
      else
        var span := if p.startedAt <= p.lastAt then Some(p.lastAt - p.startedAt) else None;
        var turn := Turn(r.nextId, Assistant, p.cards.blocks, p.startedAt, p.usage,
                         if p.durationMs.Some? then p.durationMs else span, p.model, Some(p.lastAt));
        closed.(turns := r.turns + [turn], nextId := r.nextId + 1)
  }

  /** Trim the prose a user message's chunks streamed, once its run closes. */
  function TrimOpenProse(turns: seq<Turn>): seq<Turn> {
    var last := |turns| - 1;
    if last < 0 || !turns[last].role.User? || turns[last].blocks == [] then turns
    else
      var blocks := turns[last].blocks;
      var end := |blocks| - 1;
      if !blocks[end].Text? then turns
      else turns[last := turns[last].(blocks := blocks[end := Text(Whitespace.Trim(blocks[end].text))])]
  }

  lemma TrimOpenProseIdempotent(turns: seq<Turn>)
    ensures TrimOpenProse(TrimOpenProse(turns)) == TrimOpenProse(turns)
  {
    var last := |turns| - 1;
    if last >= 0 && turns[last].role.User? && turns[last].blocks != [] {
      var blocks := turns[last].blocks;
      var end := |blocks| - 1;
      if blocks[end].Text? {
        Whitespace.TrimIdempotent(blocks[end].text);
        var once := TrimOpenProse(turns);
        assert once[last].blocks[end] == Text(Whitespace.Trim(blocks[end].text));
        assert once[last].blocks == blocks[end := once[last].blocks[end]];
        assert TrimOpenProse(once)[last].blocks == once[last].blocks;
        assert TrimOpenProse(once) == once;
      }
    }
  }

  function CloseProse(r: Reader): Reader {
    if r.proseOpen then r.(turns := TrimOpenProse(r.turns)) else r
  }

  function PushUserTurn(r: Reader, blocks: seq<Block>, at: nat): Reader {
    r.(turns := r.turns + [Turn(r.nextId, User, blocks, at, None, None, None, None)], nextId := r.nextId + 1)
  }

  function OnPrompt(r0: Reader, e: Entry): Reader
    requires e.Prompt?
  {
    var r := CloseTurn(CloseProse(r0).(betweenTurns := false));
    var r := if e.steer then r.(steered := true)
             else r.(steered := false, promptStart := Some(|r.turns|));
    var r := if e.blocks == [] then r else PushUserTurn(r, e.blocks, e.t);
    r.(promptJustRecorded := true, startHint := Some(e.t), proseOpen := false)
  }

  /** The last assistant turn at or after `from`. */
  function LastReply(turns: seq<Turn>, from: nat): (i: Option<nat>)
    ensures i.Some? ==> i.value < |turns|
  {
    if |turns| <= from then None
    else if turns[|turns| - 1].role.Assistant? then Some(|turns| - 1)
    else LastReply(turns[..|turns| - 1], from)
  }

  function OnTurnEnd(r0: Reader, e: Entry): Reader
    requires e.TurnEnd?
  {
    var r := CloseProse(r0);
    var r :=
      if r.pending.Some? then
        var p := r.pending.value;
        r.(pending := Some(p.(
           durationMs := if !r.steered && e.durationMs.Some? then e.durationMs else p.durationMs,
           model := if e.model.Some? then e.model else p.model,
           usage := if e.usage.Some? then e.usage else p.usage,
           lastAt := e.t)))
      else if r.steered && r.promptStart.Some? then
        var i := LastReply(r.turns, r.promptStart.value);
        if i.None? then r
        else
          var turn := r.turns[i.value];
          r.(turns := r.turns[i.value := turn.(
             model := if e.model.Some? then e.model else turn.model,
             usage := if e.usage.Some? then e.usage else turn.usage)])
      else r;
    CloseTurn(r).(promptJustRecorded := false, startHint := None, proseOpen := false,
              betweenTurns := true, steered := false, promptStart := None)
  }

  /** Agent output: opens a turn if none is open, consuming the prompt's timestamp. */
  function OpenTurn(r: Reader, at: nat): (o: Reader)
    ensures o.pending.Some?
  {
    var begun :=
      if r.pending.Some? then r
      else r.(pending := Some(NewPending(if r.startHint.Some? then r.startHint.value else at)), startHint := None);
    begun.(promptJustRecorded := false, pending := Some(begun.pending.value.(lastAt := at)))
  }

  /** One more block of a user message: on the user turn before it, run on from its prose if
      `coalesce`, or on a turn of its own. */
  function AddUserBlock(r: Reader, at: nat, block: Block, coalesce: bool): Reader {
    var last := |r.turns| - 1;
    if last >= 0 && r.turns[last].role.User? then
      var blocks := r.turns[last].blocks;
      var end := |blocks| - 1;
      var joined :=
        if coalesce && end >= 0 && blocks[end].Text? && block.Text? then
          blocks[end := Text(blocks[end].text + block.text)]
        else blocks + [block];
      r.(turns := r.turns[last := r.turns[last].(blocks := joined)])
    else PushUserTurn(r, [block], at)
  }

  function OnUserChunk(r: Reader, at: nat, isText: bool, visible: Option<Block>): Reader {
    if r.promptJustRecorded || visible.None? then r
    else AddUserBlock(CloseTurn(r).(startHint := Some(at)), at, visible.value, isText && r.proseOpen).(proseOpen := isText)
  }

  function ChunkText(c: Content): string {
    match c
    case Plain(text) => text
    case Other(projected) => projected
    case Picture(_) => ""
  }

  function OnAgentChunk(r: Reader, at: nat, kind: ChunkKind, c: Content): Reader {
    var o := OpenTurn(r, at);
    var p := o.pending.value;
    o.(pending := Some(
         if kind.Message? && c.Picture? then
           p.(cards := p.cards.(blocks := p.cards.blocks + [Image(c.data)]), hasContent := true)
         else PushText(p, ChunkText(c), kind.Thought?)))
  }

  function InOpenTurn(r: Reader, at: nat, edit: Cards -> Cards): Reader {
    var o := OpenTurn(r, at);
    var p := o.pending.value;
    o.(pending := Some(p.(cards := edit(p.cards), hasContent := true)))
  }

  /** An update for a call the open part did not start goes back to the card a closed
      turn drew for it: any turn's between turns, this prompt's inside one. */
  function OnToolCallUpdate(r: Reader, at: nat, id: string, f: CallFields): Reader {
    var held := r.pending.Some? && id in r.pending.value.cards.uses;
    var reach := if r.betweenTurns then Some(0) else r.promptStart;
    var closed := if reach.Some? && !held then ClosedCardTurn(r.turns, reach.value, id) else None;
    if closed.Some? then
      r.(turns := r.turns[closed.value := PatchClosedTurn(r.turns[closed.value], id, f)])
    else InOpenTurn(r, at, c => UpsertCall(c, id, f))
  }

  function OnUpdate(r0: Reader, at: nat, u: Update): Reader {
    var r := if u.UserChunk? && u.wireText then r0 else CloseProse(r0);
    match u
    case UserChunk(isText, visible) => OnUserChunk(r, at, isText, visible)
    case AgentChunk(kind, content, _) => OnAgentChunk(r, at, kind, content)
    case ToolCall(id, f) => InOpenTurn(r, at, c => UpsertCall(c, id, f))
    case ToolCallUpdate(id, f) => OnToolCallUpdate(r, at, id, f)
    case Plan(todos) => InOpenTurn(r, at, c => UpsertPlan(c, todos))
    case UsageUpdate(_, _) => r
  }

  function Step(r: Reader, e: Entry): Reader {
    match e
    case Prompt(_, _, _) => OnPrompt(r, e)
    case TurnEnd(_, _, _, _) => OnTurnEnd(r, e)
    case Updated(at, u) => OnUpdate(r, at, u)
  }

  /** The reader after a run of entries. */
  function Read(r: Reader, es: seq<Entry>): Reader
    decreases |es|
  {
    if es == [] then r else Read(Step(r, es[0]), es[1..])
  }

  function Turns(r: Reader): seq<Turn> {
    CloseProse(CloseTurn(r)).turns
  }

  /** The history view of a recorded conversation. */
  function Project(es: seq<Entry>): seq<Turn> {
    Turns(Read(START, es))
  }

  lemma {:induction false} ReadAppend(r: Reader, a: seq<Entry>, b: seq<Entry>)
    ensures Read(r, a + b) == Read(Read(r, a), b)
    decreases |a|
  {
    if a == [] {
      assert a + b == b;
    } else {
      ReadAppend(Step(r, a[0]), a[1..], b);
      assert (a + b)[1..] == a[1..] + b;
    }
  }

  lemma ReadLast(r: Reader, es: seq<Entry>)
    requires es != []
    ensures Read(r, es) == Step(Read(r, es[..|es| - 1]), es[|es| - 1])
  {
    var init, e := es[..|es| - 1], es[|es| - 1];
    ReadAppend(r, init, [e]);
    assert es == init + [e] && [e][1..] == [];
  }

  method ProjectTurns(entries: seq<Entry>) returns (turns: seq<Turn>)
    ensures turns == Project(entries)
  {
    var r := START;
    for i := 0 to |entries|
      invariant Read(r, entries[i..]) == Read(START, entries)
    {
      r := Step(r, entries[i]);
      assert entries[i..][1..] == entries[i + 1..];
    }
    turns := Turns(r);
  }

  // ---- What a streamed reply reads as --------------------------------------------

  predicate Streams(es: seq<Entry>, kind: ChunkKind) {
    forall e <- es :: e.Updated? && e.update.AgentChunk? && e.update.kind == kind && e.update.content.Plain?
  }

  function StreamedText(es: seq<Entry>, kind: ChunkKind): string
    requires Streams(es, kind)
  {
    if es == [] then "" else StreamedText(es[..|es| - 1], kind) + es[|es| - 1].update.content.text
  }

  function ProseBlock(kind: ChunkKind, text: string): Block {
    if kind.Thought? then Thinking(text) else Text(text)
  }

  /** The turn under construction after a streamed reply that began with none open. */
  function StreamedPart(startedAt: nat, lastAt: nat, kind: ChunkKind, text: string): Pending {
    var blocks := if text == "" then [] else [ProseBlock(kind, text)];
    Pending(Cards(blocks, map[], map[]), startedAt, lastAt, None, None, None, text != "")
  }

  lemma PushStreamed(startedAt: nat, lastAt: nat, kind: ChunkKind, before: string, text: string)
    ensures PushText(StreamedPart(startedAt, lastAt, kind, before), text, kind.Thought?)
            == StreamedPart(startedAt, lastAt, kind, before + text)
  {
    if text == "" {
      assert before + text == before;
    } else if before == "" {
      assert before + text == text && [] + [ProseBlock(kind, text)] == [ProseBlock(kind, text)];
    } else {
      var blocks := [ProseBlock(kind, before)];
      assert blocks[0 := ProseBlock(kind, before + text)] == [ProseBlock(kind, before + text)];
    }
  }

  lemma OneMoreChunk(r: Reader, at: nat, kind: ChunkKind, before: string, text: string, startedAt: nat, lastAt: nat)
    requires r.pending == Some(StreamedPart(startedAt, lastAt, kind, before))
    ensures OnAgentChunk(r, at, kind, Plain(text)) ==
            r.(pending := Some(StreamedPart(startedAt, at, kind, before + text)), promptJustRecorded := false)
  {
    PushStreamed(startedAt, at, kind, before, text);
  }

  lemma FirstChunk(r: Reader, at: nat, kind: ChunkKind, text: string)
    requires r.pending.None?
    ensures OnAgentChunk(r, at, kind, Plain(text)) ==
            r.(pending := Some(StreamedPart(if r.startHint.Some? then r.startHint.value else at, at, kind, text)),
               startHint := None, promptJustRecorded := false)
  {
    PushStreamed(if r.startHint.Some? then r.startHint.value else at, at, kind, "", text);
    assert "" + text == text;
  }

  /** However a reply was cut into chunks, it reads as one block of its whole text; the turn
      starts at the prompt, or at the first chunk if no prompt opened it, and ends at the
      last chunk. */
  lemma {:induction false} ReplyIsOneBlock(r: Reader, es: seq<Entry>, kind: ChunkKind)
    requires r.pending.None? && CloseProse(r) == r && es != [] && Streams(es, kind)
    ensures Read(r, es) ==
            r.(pending := Some(StreamedPart(if r.startHint.Some? then r.startHint.value else es[0].t,
                                            es[|es| - 1].t, kind, StreamedText(es, kind))),
               startHint := None, promptJustRecorded := false)
    decreases |es|
  {
    var init, last := es[..|es| - 1], es[|es| - 1];
    assert es == init + [last];
    ReadAppend(r, init, [last]);
    assert [last][1..] == [];
    if init == [] {
      assert StreamedText(es, kind) == "" + last.update.content.text == last.update.content.text;
      FirstChunk(r, last.t, kind, last.update.content.text);
    } else {
      ReplyIsOneBlock(r, init, kind);
      var startedAt := if r.startHint.Some? then r.startHint.value else es[0].t;
      OneMoreChunk(Read(r, init), last.t, kind, StreamedText(init, kind), last.update.content.text,
                   startedAt, init[|init| - 1].t);
    }
  }

  /** The assistant turn a reply to a prompt leaves. */
  function Reply(id: nat, text: string, from: nat, end: Entry): Turn
    requires end.TurnEnd?
  {
    var span := if from <= end.t then Some(end.t - from) else None;
    Turn(id, Assistant, [Text(text)], from, end.usage, if end.durationMs.Some? then end.durationMs else span,
         end.model, Some(end.t))
  }

  /** A prompted turn: whatever came before, a prompt, a streamed reply and its turn end add
      the user's turn at the prompt's time and one assistant turn that holds the whole text,
      starts at the prompt, ends at the turn end and carries what the turn end reports. */
  lemma PromptedTurnReads(r: Reader, prompt: Entry, es: seq<Entry>, end: Entry)
    requires prompt.Prompt? && !prompt.steer && prompt.blocks != [] && end.TurnEnd?
    requires es != [] && Streams(es, Message) && StreamedText(es, Message) != ""
    ensures var before, f := CloseTurn(CloseProse(r)), Read(r, [prompt] + es + [end]);
            && f.pending.None? && f.betweenTurns && f.nextId == before.nextId + 2
            && f.turns == before.turns
                          + [Turn(before.nextId, User, prompt.blocks, prompt.t, None, None, None, None)]
                          + [Reply(before.nextId + 1, StreamedText(es, Message), prompt.t, end)]
  {
    var asked := Step(r, prompt);
    ReadAppend(r, [prompt] + es, [end]);
    ReadAppend(r, [prompt], es);
    assert [prompt][1..] == [] && [end][1..] == [];
    ReplyIsOneBlock(asked, es, Message);
    PromptOpens(r, prompt);
    EndCloses(Read(asked, es), end, prompt.t, es[|es| - 1].t, StreamedText(es, Message));
  }

  lemma PromptOpens(r: Reader, prompt: Entry)
    requires prompt.Prompt? && !prompt.steer && prompt.blocks != []
    ensures var before, o := CloseTurn(CloseProse(r)), OnPrompt(r, prompt);
            && o.pending.None? && !o.proseOpen && o.startHint == Some(prompt.t) && !o.steered
            && o.nextId == before.nextId + 1
            && o.turns == before.turns + [Turn(before.nextId, User, prompt.blocks, prompt.t, None, None, None, None)]
  {
  }

  lemma EndCloses(r: Reader, end: Entry, from: nat, lastAt: nat, text: string)
    requires end.TurnEnd? && text != "" && !r.proseOpen && !r.steered
    requires r.pending == Some(StreamedPart(from, lastAt, Message, text))
    ensures var f := OnTurnEnd(r, end);
            && f.pending.None? && f.betweenTurns && f.nextId == r.nextId + 1
            && f.turns == r.turns + [Reply(r.nextId, text, from, end)]
  {
  }
}
