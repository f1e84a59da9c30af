/** What the history view shows for whole conversations, said of its turns alone. */
module ProjectionLaws {
  import opened Records
  import opened Projection
  import Whitespace

  predicate IsUserChunk(e: Entry) { e.Updated? && e.update.UserChunk? }

  // ---- A prompt's echo, and a user message nobody recorded --------------------------

  lemma {:induction false} EchoChangesNothing(r: Reader, us: seq<Entry>)
    requires r.promptJustRecorded && !r.proseOpen
    requires forall i :: 0 <= i < |us| ==> IsUserChunk(us[i])
    ensures Read(r, us) == r
    decreases |us|
  {
    if us != [] {
      assert IsUserChunk(us[0]);
      EchoChangesNothing(r, us[1..]);
    }
  }

  /** An agent that repeats a recorded prompt back, in any number of chunks before its own
      first output, adds nothing: the conversation reads as if it had not. */
  lemma EchoIsDropped(before: seq<Entry>, prompt: Entry, us: seq<Entry>, rest: seq<Entry>)
    requires prompt.Prompt? && forall i :: 0 <= i < |us| ==> IsUserChunk(us[i])
    ensures Project(before + [prompt] + us + rest) == Project(before + [prompt] + rest)
  {
    ReadAppend(START, before + [prompt] + us, rest);
    ReadAppend(START, before + [prompt], us);
    ReadAppend(START, before + [prompt], rest);
    ReadAppend(START, before, [prompt]);
    assert [prompt][1..] == [];
    var asked := Read(START, before + [prompt]);
    assert asked == Step(Read(START, before), prompt);
    EchoChangesNothing(asked, us);
  }

  /** The same of one turn, in full: a prompt, its echo, a streamed reply and the turn end
      add the user's turn with the prompt's own blocks, once, and the reply's turn. */
  lemma EchoedTurnReads(r: Reader, prompt: Entry, us: seq<Entry>, es: seq<Entry>, end: Entry)
    requires prompt.Prompt? && !prompt.steer && prompt.blocks != [] && end.TurnEnd?
    requires forall i :: 0 <= i < |us| ==> IsUserChunk(us[i])
    requires es != [] && Streams(es, Message) && StreamedText(es, Message) != ""
    ensures var before, f := CloseTurn(CloseProse(r)), Read(r, [prompt] + us + es + [end]);
            f.turns == before.turns
                       + [Said(before.nextId, prompt)]
                       + [Reply(before.nextId + 1, StreamedText(es, Message), prompt.t, end)]
  {
    assert [prompt][1..] == [];
    ReadAppend(r, [prompt] + us + es, [end]);
    ReadAppend(r, [prompt] + us, es);
    ReadAppend(r, [prompt], us);
    EchoChangesNothing(Step(r, prompt), us);
    ReadAppend(r, [prompt] + es, [end]);
    ReadAppend(r, [prompt], es);
    PromptedTurnReads(r, prompt, es, end);
  }

  /** A text chunk of a user message. */
  predicate IsTyped(e: Entry) {
    IsUserChunk(e) && e.update.wireText && e.update.visible.Some? && e.update.visible.value.Text?
  }

  function TypedText(us: seq<Entry>): string
    requires forall i :: 0 <= i < |us| ==> IsTyped(us[i])
  {
    if us == [] then ""
    else
      assert IsTyped(us[|us| - 1]);
      TypedText(us[..|us| - 1]) + us[|us| - 1].update.visible.value.text
  }

  predicate EndsOnUser(turns: seq<Turn>) { turns != [] && turns[|turns| - 1].role.User? }

  /** One more block of the user's: on the user turn it follows, or on a turn of its own. */
  function WithUserBlock(turns: seq<Turn>, id: nat, block: Block, at: nat): seq<Turn> {
    if EndsOnUser(turns) then
      turns[|turns| - 1 := turns[|turns| - 1].(blocks := turns[|turns| - 1].blocks + [block])]
    else turns + [Turn(id, User, [block], at, None, None, None, None)]
  }

  function IdAfterUserBlock(turns: seq<Turn>, id: nat): nat {
    if EndsOnUser(turns) then id else id + 1
  }

  /** The reader with a user message shown: one more user block at `from`, and the turn that
      answers it starting at `upTo`. */
  function Shown(r: Reader, block: Block, from: nat, upTo: nat): Reader {
    var q := CloseTurn(r);
    q.(turns := WithUserBlock(q.turns, q.nextId, block, from), nextId := IdAfterUserBlock(q.turns, q.nextId),
       startHint := Some(upTo), proseOpen := block.Text?)
  }

  lemma FirstTyped(r: Reader, u: Entry)
    requires IsTyped(u) && !r.promptJustRecorded && (r.proseOpen ==> !EndsOnUser(CloseTurn(r).turns))
    ensures Step(r, u) == Shown(r, u.update.visible.value, u.t, u.t)
  {
  }

  lemma NextTyped(r: Reader, u: Entry, before: string, from: nat, upTo: nat)
    requires IsTyped(u) && !r.promptJustRecorded
    ensures Step(Shown(r, Text(before), from, upTo), u)
            == Shown(r, Text(before + u.update.visible.value.text), from, u.t)
  {
    var text := before + u.update.visible.value.text;
    var q, was := CloseTurn(r), Shown(r, Text(before), from, upTo);
    var last := was.turns[|was.turns| - 1];
    assert last.blocks[|last.blocks| - 1] == Text(before);
    var now := last.blocks[|last.blocks| - 1 := Text(text)];
    if EndsOnUser(q.turns) {
      assert now == q.turns[|q.turns| - 1].blocks + [Text(text)];
    } else {
      assert now == [Text(text)];
    }
    assert was.turns[|was.turns| - 1 := last.(blocks := now)] == WithUserBlock(q.turns, q.nextId, Text(text), from);
  }

  /** With no prompt just recorded, a user message shows: its text chunks as one block,
      and the assistant's turn before it is over. */
  lemma {:induction false} UserTextShows(r: Reader, us: seq<Entry>)
    requires !r.promptJustRecorded && us != [] && forall i :: 0 <= i < |us| ==> IsTyped(us[i])
    requires r.proseOpen ==> !EndsOnUser(CloseTurn(r).turns)
    ensures Read(r, us) == Shown(r, Text(TypedText(us)), us[0].t, us[|us| - 1].t)
    decreases |us|
  {
    var init, u := us[..|us| - 1], us[|us| - 1];
    assert us == init + [u] && [u][1..] == [] && IsTyped(u);
    ReadAppend(r, init, [u]);
    if init == [] {
      assert "" + u.update.visible.value.text == u.update.visible.value.text;
      FirstTyped(r, u);
    } else {
      UserTextShows(r, init);
      NextTyped(r, u, TypedText(init), us[0].t, init[|init| - 1].t);
    }
  }

  /** An attachment or an image is a block of its own: text before it is closed, and text
      after it does not run on from it. */
  lemma AttachmentShows(r: Reader, e: Entry)
    requires IsUserChunk(e) && !e.update.wireText && e.update.visible.Some?
    requires !r.promptJustRecorded
    ensures Step(r, e) == Shown(CloseProse(r), e.update.visible.value, e.t, e.t).(proseOpen := false)
  {
  }

  lemma ClosedOnce(r: Reader)
    ensures CloseProse(CloseProse(r)) == CloseProse(r)
  {
    TrimOpenProseIdempotent(r.turns);
  }

  lemma ReplyClosesProse(r: Reader, es: seq<Entry>)
    requires es != [] && es[0].Updated? && es[0].update.AgentChunk?
    ensures Read(r, es) == Read(CloseProse(r), es)
  {
    ClosedOnce(r);
  }

  /** A part of a reply no turn end closed: it lasted from its start to its last chunk. */
  function Unreported(id: nat, text: string, from: nat, upTo: nat): Turn {
    Turn(id, Assistant, [Text(text)], from, None, if from <= upTo then Some(upTo - from) else None, None, Some(upTo))
  }

  lemma StreamedCloses(r: Reader, from: nat, upTo: nat, text: string)
    requires r.pending == Some(StreamedPart(from, upTo, Message, text)) && text != ""
    ensures CloseTurn(r) == r.(pending := None, turns := r.turns + [Unreported(r.nextId, text, from, upTo)],
                               nextId := r.nextId + 1)
  {
  }

  lemma ReplyTurn(r: Reader, es: seq<Entry>)
    requires r.pending.None? && CloseProse(r) == r && r.startHint.Some?
    requires es != [] && Streams(es, Message) && StreamedText(es, Message) != ""
    ensures CloseTurn(Read(r, es)) ==
            r.(turns := r.turns + [Unreported(r.nextId, StreamedText(es, Message), r.startHint.value, es[|es| - 1].t)],
               nextId := r.nextId + 1, startHint := None, promptJustRecorded := false)
  {
    ReplyIsOneBlock(r, es, Message);
    StreamedCloses(Read(r, es), r.startHint.value, es[|es| - 1].t, StreamedText(es, Message));
  }

  lemma ReplyTurns(r: Reader, es: seq<Entry>)
    requires r.pending.None? && CloseProse(r) == r && r.startHint.Some?
    requires es != [] && Streams(es, Message) && StreamedText(es, Message) != ""
    ensures Turns(Read(r, es)) ==
            r.turns + [Unreported(r.nextId, StreamedText(es, Message), r.startHint.value, es[|es| - 1].t)]
  {
    ReplyTurn(r, es);
  }

  lemma TrimsTyped(r: Reader, text: string, from: nat, upTo: nat)
    requires !EndsOnUser(CloseTurn(r).turns)
    ensures CloseProse(Shown(r, Text(text), from, upTo)) == Shown(r, Text(Whitespace.Trim(text)), from, upTo)
  {
    var q, was := CloseTurn(r), Shown(r, Text(text), from, upTo);
    var last := |was.turns| - 1;
    assert was.turns[last].blocks[0 := Text(Whitespace.Trim(text))] == [Text(Whitespace.Trim(text))];
    assert was.turns[last := was.turns[last].(blocks := [Text(Whitespace.Trim(text))])]
           == WithUserBlock(q.turns, q.nextId, Text(Whitespace.Trim(text)), from);
  }

  /** The reader `f` after a replayed user message, its text trimmed, where `before` was the
      reader with its last turn closed. */
  predicate TypedFrom(before: Reader, us: seq<Entry>, f: Reader)
    requires us != [] && forall i :: 0 <= i < |us| ==> IsTyped(us[i])
  {
    && f.pending.None? && CloseProse(f) == f && f.startHint == Some(us[|us| - 1].t)
    && f.nextId == before.nextId + 1
    && f.turns == before.turns
                  + [Turn(before.nextId, User, [Text(Whitespace.Trim(TypedText(us)))], us[0].t, None, None, None, None)]
  }

  lemma TypedSoFar(r: Reader, us: seq<Entry>)
    requires !r.promptJustRecorded && !EndsOnUser(CloseTurn(r).turns)
    requires us != [] && forall i :: 0 <= i < |us| ==> IsTyped(us[i])
    ensures TypedFrom(CloseTurn(r), us, CloseProse(Read(r, us)))
  {
    UserTextShows(r, us);
    TrimsTyped(r, TypedText(us), us[0].t, us[|us| - 1].t);
    ClosedOnce(Read(r, us));
  }

  /** The turns after a replayed exchange. */
  function Replayed(before: Reader, us: seq<Entry>, es: seq<Entry>): seq<Turn>
    requires us != [] && forall i :: 0 <= i < |us| ==> IsTyped(us[i])
    requires es != [] && Streams(es, Message)
  {
    before.turns
    + [Turn(before.nextId, User, [Text(Whitespace.Trim(TypedText(us)))], us[0].t, None, None, None, None)]
    + [Unreported(before.nextId + 1, StreamedText(es, Message), us[|us| - 1].t, es[|es| - 1].t)]
  }

  lemma TypedThenReplied(before: Reader, us: seq<Entry>, f: Reader, es: seq<Entry>)
    requires us != [] && forall i :: 0 <= i < |us| ==> IsTyped(us[i])
    requires es != [] && Streams(es, Message) && StreamedText(es, Message) != "" && TypedFrom(before, us, f)
    ensures Turns(Read(f, es)) == Replayed(before, us, es)
  {
    ReplyTurns(f, es);
  }

  /** A replayed exchange, with no prompt or turn end recorded: the user's chunks read as one
      block of their whole text, trimmed, and the reply as one turn that starts with the
      user's last chunk. */
  lemma ReplayedTurnReads(r: Reader, us: seq<Entry>, es: seq<Entry>)
    requires !r.promptJustRecorded && !EndsOnUser(CloseTurn(r).turns)
    requires us != [] && forall i :: 0 <= i < |us| ==> IsTyped(us[i])
    requires es != [] && Streams(es, Message) && StreamedText(es, Message) != ""
    ensures Turns(Read(r, us + es)) == Replayed(CloseTurn(r), us, es)
  {
    var f := CloseProse(Read(r, us));
    assert Read(r, us + es) == Read(f, es) by {
      ReadAppend(r, us, es);
      ReplyClosesProse(Read(r, us), es);
    }
    assert TypedFrom(CloseTurn(r), us, f) by { TypedSoFar(r, us); }
    TypedThenReplied(CloseTurn(r), us, f, es);
  }

  /** The same message with no reply yet. */
  lemma UnansweredMessageReads(r: Reader, us: seq<Entry>)
    requires !r.promptJustRecorded && !EndsOnUser(CloseTurn(r).turns)
    requires us != [] && forall i :: 0 <= i < |us| ==> IsTyped(us[i])
    ensures var before := CloseTurn(r);
            Turns(Read(r, us)) ==
            before.turns
            + [Turn(before.nextId, User, [Text(Whitespace.Trim(TypedText(us)))], us[0].t, None, None, None, None)]
  {
    UserTextShows(r, us);
    TypedSoFar(r, us);
  }

  // ---- A turn with a message delivered into it --------------------------------------

  /** A recorded user message as a turn. */
  function Said(id: nat, e: Entry): Turn
    requires e.Prompt?
  {
    Turn(id, User, e.blocks, e.t, None, None, None, None)
  }

  lemma SteerOpens(r: Reader, steer: Entry)
    requires steer.Prompt? && steer.steer && steer.blocks != [] && !r.proseOpen
    ensures var before, o := CloseTurn(r), OnPrompt(r, steer);
            && o.pending.None? && !o.proseOpen && o.startHint == Some(steer.t) && o.steered
            && o.promptStart == before.promptStart && o.nextId == before.nextId + 1
            && o.turns == before.turns + [Said(before.nextId, steer)]
  {
  }

  lemma SteeredEndCloses(r: Reader, end: Entry, from: nat, lastAt: nat, text: string)
    requires end.TurnEnd? && text != "" && !r.proseOpen && r.steered
    requires r.pending == Some(StreamedPart(from, lastAt, Message, text))
    ensures OnTurnEnd(r, end).turns ==
            r.turns + [Unreported(r.nextId, text, from, end.t).(usage := end.usage, model := end.model)]
  {
  }

  /** The reader `f` after a prompt, a reply and a message delivered into the turn, where
      `before` was the reader with its last turn closed. */
  predicate SteeredFrom(before: Reader, prompt: Entry, es: seq<Entry>, steer: Entry, f: Reader)
    requires prompt.Prompt? && steer.Prompt? && es != [] && Streams(es, Message)
  {
    && f.pending.None? && !f.proseOpen && f.startHint == Some(steer.t) && f.steered
    && f.promptStart == Some(|before.turns|) && f.nextId == before.nextId + 3
    && f.turns == before.turns + [Said(before.nextId, prompt)]
                  + [Unreported(before.nextId + 1, StreamedText(es, Message), prompt.t, es[|es| - 1].t)]
                  + [Said(before.nextId + 2, steer)]
  }

  lemma SteeredSoFar(r: Reader, prompt: Entry, es: seq<Entry>, steer: Entry)
    requires prompt.Prompt? && !prompt.steer && prompt.blocks != []
    requires steer.Prompt? && steer.steer && steer.blocks != []
    requires es != [] && Streams(es, Message) && StreamedText(es, Message) != ""
    ensures SteeredFrom(CloseTurn(CloseProse(r)), prompt, es, steer, Read(r, [prompt] + es + [steer]))
  {
    assert [prompt][1..] == [] && [steer][1..] == [];
    ReadAppend(r, [prompt] + es, [steer]);
    ReadAppend(r, [prompt], es);
    PromptOpens(r, prompt);
    ReplyTurn(Step(r, prompt), es);
    ReplyIsOneBlock(Step(r, prompt), es, Message);
    SteerOpens(Read(Step(r, prompt), es), steer);
  }

  /** A message delivered into a turn splits its reply in two, each part with its own times;
      what the turn end reports goes on the second, but for the duration, which spans the
      whole turn and is left out. */
  lemma SteeredTurnReads(r: Reader, prompt: Entry, es: seq<Entry>, steer: Entry, fs: seq<Entry>, end: Entry)
    requires prompt.Prompt? && !prompt.steer && prompt.blocks != [] && end.TurnEnd?
    requires steer.Prompt? && steer.steer && steer.blocks != []
    requires es != [] && Streams(es, Message) && StreamedText(es, Message) != ""
    requires fs != [] && Streams(fs, Message) && StreamedText(fs, Message) != ""
    ensures var before := CloseTurn(CloseProse(r));
            Read(r, [prompt] + es + [steer] + fs + [end]).turns ==
            before.turns
            + [Said(before.nextId, prompt)]
            + [Unreported(before.nextId + 1, StreamedText(es, Message), prompt.t, es[|es| - 1].t)]
            + [Said(before.nextId + 2, steer)]
            + [Unreported(before.nextId + 3, StreamedText(fs, Message), steer.t, end.t)
               .(usage := end.usage, model := end.model)]
  {
    assert [end][1..] == [];
    ReadAppend(r, [prompt] + es + [steer] + fs, [end]);
    ReadAppend(r, [prompt] + es + [steer], fs);
    SteeredSoFar(r, prompt, es, steer);
    var steered := Read(r, [prompt] + es + [steer]);
    ReplyIsOneBlock(steered, fs, Message);
    SteeredEndCloses(Read(steered, fs), end, steer.t, fs[|fs| - 1].t, StreamedText(fs, Message));
  }

  /** The turn end of a steered turn with nothing after the message reports on the last part:
      what it says replaces what the part had, what it leaves out stays. */
  lemma EndReachesBack(r: Reader, end: Entry, before: seq<Turn>, part: Turn, said: Turn)
    requires end.TurnEnd? && r.pending.None? && !r.proseOpen && r.steered
    requires r.turns == before + [part] + [said] && part.role.Assistant? && said.role.User?
    requires r.promptStart.Some? && r.promptStart.value <= |before|
    ensures Read(r, [end]).turns ==
            before
            + [part.(usage := if end.usage.Some? then end.usage else part.usage,
                     model := if end.model.Some? then end.model else part.model)]
            + [said]
  {
    assert [end][1..] == [];
    var i := |before|;
    assert r.turns[i] == part && r.turns[i + 1] == said;
    assert r.turns[..i + 1][i] == part;
    assert LastReply(r.turns, r.promptStart.value) == Some(i);
    var now := part.(usage := if end.usage.Some? then end.usage else part.usage,
                     model := if end.model.Some? then end.model else part.model);
    assert r.turns[i := now] == before + [now] + [said];
  }

  lemma UnansweredEnd(before: Reader, prompt: Entry, es: seq<Entry>, steer: Entry, f: Reader, end: Entry)
    requires prompt.Prompt? && steer.Prompt? && end.TurnEnd? && es != [] && Streams(es, Message)
    requires SteeredFrom(before, prompt, es, steer, f)
    ensures Read(f, [end]).turns ==
            before.turns + [Said(before.nextId, prompt)]
            + [Unreported(before.nextId + 1, StreamedText(es, Message), prompt.t, es[|es| - 1].t)
               .(usage := end.usage, model := end.model)]
            + [Said(before.nextId + 2, steer)]
  {
    var part := Unreported(before.nextId + 1, StreamedText(es, Message), prompt.t, es[|es| - 1].t);
    EndReachesBack(f, end, before.turns + [Said(before.nextId, prompt)], part, Said(before.nextId + 2, steer));
  }

  /** Nothing after the message: the turn end's usage and model go on the part before it. */
  lemma SteerWithoutAnswer(r: Reader, prompt: Entry, es: seq<Entry>, steer: Entry, end: Entry)
    requires prompt.Prompt? && !prompt.steer && prompt.blocks != [] && end.TurnEnd?
    requires steer.Prompt? && steer.steer && steer.blocks != []
    requires es != [] && Streams(es, Message) && StreamedText(es, Message) != ""
    ensures var before := CloseTurn(CloseProse(r));
            Read(r, [prompt] + es + [steer] + [end]).turns ==
            before.turns
            + [Said(before.nextId, prompt)]
            + [Unreported(before.nextId + 1, StreamedText(es, Message), prompt.t, es[|es| - 1].t)
               .(usage := end.usage, model := end.model)]
            + [Said(before.nextId + 2, steer)]
  {
    var f := Read(r, [prompt] + es + [steer]);
    assert Read(r, [prompt] + es + [steer] + [end]) == Read(f, [end]) by {
      ReadAppend(r, [prompt] + es + [steer], [end]);
    }
    SteeredSoFar(r, prompt, es, steer);
    UnansweredEnd(CloseTurn(CloseProse(r)), prompt, es, steer, f, end);
  }

  /** With no part open and no message delivered into the turn, a turn end reports on no turn:
      least of all on a reply that was closed before. */
  lemma EndAloneTouchesNoTurn(r: Reader, end: Entry)
    requires end.TurnEnd? && r.pending.None? && !r.steered
    ensures Step(r, end).turns == CloseProse(r).turns && Step(r, end).nextId == r.nextId
  {
  }

  // ---- What does not carry over -------------------------------------------------------

  /** A turn end leaves no trace of how its turn went but the turns: after it, whatever comes
      next reads the same. */
  lemma NothingCarriesOver(a: Reader, b: Reader, end: Entry, other: Entry, rest: seq<Entry>)
    requires end.TurnEnd? && other.TurnEnd?
    requires Step(a, end).turns == Step(b, other).turns && Step(a, end).nextId == Step(b, other).nextId
    ensures Read(a, [end] + rest) == Read(b, [other] + rest)
  {
    assert Step(a, end) == Step(b, other);
    assert ([end] + rest)[1..] == rest && ([other] + rest)[1..] == rest;
  }

  /** A usage report describes no turn: all it does is end the run of prose before it. */
  lemma UsageOnlyEndsProse(r: Reader, e: Entry, rest: seq<Entry>)
    requires e.Updated? && e.update.UsageUpdate?
    ensures Read(r, [e] + rest) == Read(CloseProse(r), rest)
  {
    assert ([e] + rest)[1..] == rest;
  }
}
