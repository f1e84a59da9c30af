/** The transcript's data model: what a line records, and the file it is printed to. */
module Records {

  datatype Option<+T> = None | Some(value: T)

  /** A turn's blocks as the history view draws them. */
  datatype Block =
    | Text(text: string)
    | Thinking(text: string)
    | Image(data: string)
    | ToolUse(useId: string, name: string, input: Option<string>, meta: Option<string>)
    | ToolResult(resultId: string, output: Option<string>, isError: bool, images: seq<string>)

  datatype ChunkKind = Message | Thought

  /** What a streamed agent chunk carries. `Plain` is ACP `text` content; `Other` is
      any content with a textual projection (a resource link's uri, an embedded text). */
  datatype Content = Plain(text: string) | Picture(data: string) | Other(projected: string)

  /** One tool call notification, with its input and output already rendered to text. */
  datatype CallFields = CallFields(
    title: Option<string>,
    input: Option<string>,
    output: Option<string>,
    images: seq<string>,
    failed: bool,
    meta: Option<string>)

  /** The payload of a `session/update` line. */
  datatype Update =
    | UserChunk(wireText: bool, visible: Option<Block>)
    | AgentChunk(kind: ChunkKind, content: Content, meta: Option<string>)
    | ToolCall(callId: string, call: CallFields)
    | ToolCallUpdate(callId: string, call: CallFields)
    | Plan(todos: string)
    | UsageUpdate(used: Option<nat>, size: Option<nat>)

  datatype Usage = Usage(input: nat, output: nat, cacheCreation: nat, cacheRead: nat)

  datatype Entry =
    | Prompt(t: nat, blocks: seq<Block>, steer: bool)
    | Updated(t: nat, update: Update)
    | TurnEnd(t: nat, durationMs: Option<nat>, model: Option<string>, usage: Option<Usage>)

  datatype Header = Header(agent: string, sessionId: string, cwd: string, startedAt: nat,
                           continuesFrom: Option<string>)

  datatype Record = HeaderRecord(header: Header) | EntryRecord(entry: Entry)

  /** Records that must not wait for a flush window. */
  predicate IsBoundary(r: Record) {
    match r
    case HeaderRecord(_) => true
    case EntryRecord(e) => e.Prompt? || e.TurnEnd?
  }

  function EntriesOf(rs: seq<Record>): (es: seq<Entry>)
  {
    if rs == [] then []
    else (if rs[0].EntryRecord? then [rs[0].entry] else []) + EntriesOf(rs[1..])
  }

  lemma {:induction false} EntriesOfAppend(a: seq<Record>, b: seq<Record>)
    ensures EntriesOf(a + b) == EntriesOf(a) + EntriesOf(b)
  {
    if a == [] {
      assert a + b == b;
    } else {
      EntriesOfAppend(a[1..], b);
      assert (a + b)[0] == a[0] && (a + b)[1..] == a[1..] + b;
      var first := if a[0].EntryRecord? then [a[0].entry] else [];
      assert (first + EntriesOf(a[1..])) + EntriesOf(b) == first + (EntriesOf(a[1..]) + EntriesOf(b));
    }
  }

  lemma AssociateConcat<T>(a: seq<T>, b: seq<T>, c: seq<T>)
    ensures (a + b) + c == a + (b + c)
  {}

  function HeaderCount(rs: seq<Record>): (n: nat)
  {
    if rs == [] then 0
    else (if rs[0].HeaderRecord? then 1 else 0) + HeaderCount(rs[1..])
  }

  lemma {:induction false} HeaderCountAppend(a: seq<Record>, b: seq<Record>)
    ensures HeaderCount(a + b) == HeaderCount(a) + HeaderCount(b)
  {
    if a == [] {
      assert a + b == b;
    } else {
      HeaderCountAppend(a[1..], b);
      assert (a + b)[1..] == a[1..] + b;
    }
  }
}

/** The transcript file as a sequence of cells. A record prints as a run of cells that
    name it, closed by a newline, so the printer is injective, a line parses back to
    its record, and a strict prefix of a line (or two lines run together) parses to
    nothing: what one-line JSON gives the source. */
module TranscriptFile {
  import opened Records

  datatype Cell = Newline | At(record: Record, offset: int)

  /** How many cells a record's line has before its newline. */
  function Width(r: Record): (n: nat)
    ensures n >= 2
  {
    match r
    case EntryRecord(Updated(_, AgentChunk(_, Plain(text), _))) => 2 + |text|
    case _ => 2
  }

  function Line(r: Record): (cells: seq<Cell>)
    ensures |cells| == Width(r)
    ensures forall i :: 0 <= i < |cells| ==> cells[i] == At(r, i)
  {
    seq(Width(r), i => At(r, i))
  }

  function Print(rs: seq<Record>): (cells: seq<Cell>)
  {
    if rs == [] then [] else Line(rs[0]) + [Newline] + Print(rs[1..])
  }

  function FirstNewline(cells: seq<Cell>): (k: nat)
    ensures k <= |cells|
    ensures k < |cells| ==> cells[k] == Newline
    ensures forall i :: 0 <= i < k ==> cells[i] != Newline
  {
    if cells == [] || cells[0] == Newline then 0 else 1 + FirstNewline(cells[1..])
  }

  /** What one line reads as: its record when it is exactly that record's line. */
  function ParseLine(cells: seq<Cell>): (rs: seq<Record>)
  {
    if cells != [] && cells[0].At? && cells == Line(cells[0].record) then [cells[0].record] else []
  }

  /** Every line that parses, in file order; the rest are skipped. */
  function Parse(cells: seq<Cell>): (rs: seq<Record>)
    decreases |cells|
  {
    var k := FirstNewline(cells);
    if k == |cells| then ParseLine(cells)
    else ParseLine(cells[..k]) + Parse(cells[k + 1..])
  }

  /** The next append starts a line of its own. */
  predicate AtBoundary(cells: seq<Cell>) {
    cells == [] || cells[|cells| - 1] == Newline
  }

  /** The part of a file that its last newline closes. */
  function ClosedPart(cells: seq<Cell>): (closed: seq<Cell>)
    ensures closed <= cells && AtBoundary(closed)
    ensures AtBoundary(cells) <==> closed == cells
    ensures forall i :: |closed| <= i < |cells| ==> cells[i] != Newline
  {
    if AtBoundary(cells) then cells else ClosedPart(cells[..|cells| - 1])
  }

  /** The records whose lines are whole in the first `n` cells of the printing of `rs`:
      the closing newline is not needed for a line to read back. */
  function WholeLines(rs: seq<Record>, n: nat): (whole: seq<Record>)
    ensures whole <= rs
  {
    if rs == [] || n < Width(rs[0]) then []
    else if n == Width(rs[0]) then [rs[0]]
    else [rs[0]] + WholeLines(rs[1..], n - Width(rs[0]) - 1)
  }

  lemma FirstNewlineIs(cells: seq<Cell>, k: nat)
    requires k <= |cells| && (forall i :: 0 <= i < k ==> cells[i] != Newline)
    requires k == |cells| || cells[k] == Newline
    ensures FirstNewline(cells) == k
  {}

  lemma ParseFirst(line: seq<Cell>, rest: seq<Cell>)
    requires forall i :: 0 <= i < |line| ==> line[i] != Newline
    ensures Parse(line) == ParseLine(line)
    ensures Parse(line + [Newline] + rest) == ParseLine(line) + Parse(rest)
  {
    FirstNewlineIs(line, |line|);
    var cells := line + [Newline] + rest;
    FirstNewlineIs(cells, |line|);
    assert cells[..|line|] == line && cells[|line| + 1..] == rest;
  }

  lemma SplitFirst(a: seq<Cell>, b: seq<Cell>) returns (line: seq<Cell>, tail: seq<Cell>)
    requires a != [] && AtBoundary(a)
    ensures AtBoundary(tail) && a == line + [Newline] + tail
    ensures a + b == line + [Newline] + (tail + b)
    ensures forall i :: 0 <= i < |line| ==> line[i] != Newline
  {
    var k := FirstNewline(a);
    line, tail := a[..k], a[k + 1..];
  }

  /** A file that ends on a line boundary parses independently of what follows. */
  lemma {:induction false} ParseAppend(a: seq<Cell>, b: seq<Cell>)
    requires AtBoundary(a)
    ensures Parse(a + b) == Parse(a) + Parse(b)
    decreases |a|
  {
    if a == [] {
      assert a + b == b;
      assert Parse(a) + Parse(b) == Parse(b);
    } else {
      var line, tail := SplitFirst(a, b);
      ParseAppend(tail, b);
      ParseFirst(line, tail);
      ParseFirst(line, tail + b);
      AssociateConcat(ParseLine(line), Parse(tail), Parse(b));
    }
  }

  lemma ParseOneLine(r: Record)
    ensures ParseLine(Line(r)) == [r]
  {
    assert Line(r)[0] == At(r, 0);
  }

  lemma ParseFirstLine(r: Record, rest: seq<Cell>)
    ensures Parse(Line(r) + [Newline] + rest) == [r] + Parse(rest)
  {
    ParseFirst(Line(r), rest);
    ParseOneLine(r);
  }

  lemma {:induction false} PrintAtBoundary(rs: seq<Record>)
    ensures AtBoundary(Print(rs))
    ensures rs != [] ==> Print(rs) != []
  {
    if rs != [] { PrintAtBoundary(rs[1..]); }
  }

  /** Printing then parsing gives the records back. */
  lemma {:induction false} ParsePrint(rs: seq<Record>)
    ensures Parse(Print(rs)) == rs
  {
    if rs != [] {
      ParsePrint(rs[1..]);
      ParseFirstLine(rs[0], Print(rs[1..]));
    }
  }

  lemma TornLineParsesToNothing(r: Record, n: nat)
    requires n < Width(r)
    ensures ParseLine(Line(r)[..n]) == []
  {
    var cells := Line(r)[..n];
    if cells != [] {
      assert cells[0] == At(r, 0);
    }
  }

  lemma PrintFirst(rs: seq<Record>)
    requires rs != []
    ensures Print(rs) == Line(rs[0]) + [Newline] + Print(rs[1..])
  {}

  /** A write torn after any number of cells leaves exactly the lines it finished,
      whether or not a newline is then added to restore the boundary. */
  lemma {:induction false} ParseTorn(rs: seq<Record>, n: nat)
    requires n <= |Print(rs)|
    ensures Parse(Print(rs)[..n]) == WholeLines(rs, n)
    ensures Parse(Print(rs)[..n] + [Newline]) == WholeLines(rs, n)
  {
    if rs == [] {
      ParseNothing();
      assert Print(rs)[..n] == [] && Print(rs)[..n] + [Newline] == [Newline];
    } else {
      PrintFirst(rs);
      if n <= Width(rs[0]) {
        ParseTornFirstLine(rs[0], Print(rs[1..]), n);
      } else {
        ParseTornLater(rs[0], Print(rs[1..]), n);
        ParseTorn(rs[1..], n - Width(rs[0]) - 1);
      }
    }
  }

  lemma ParseNothing()
    ensures Parse([]) == [] && Parse([Newline]) == []
  {
    ParseFirst([], []);
    assert [Newline] == [] + [Newline] + [];
  }

  lemma ParseTornLater(r: Record, tail: seq<Cell>, n: nat)
    requires Width(r) < n <= Width(r) + 1 + |tail|
    ensures var cells, rest := (Line(r) + [Newline] + tail)[..n], tail[..n - Width(r) - 1];
            && Parse(cells) == [r] + Parse(rest)
            && Parse(cells + [Newline]) == [r] + Parse(rest + [Newline])
  {
    var cells, rest := (Line(r) + [Newline] + tail)[..n], tail[..n - Width(r) - 1];
    assert cells == Line(r) + [Newline] + rest;
    ParseFirstLine(r, rest);
    assert cells + [Newline] == Line(r) + [Newline] + (rest + [Newline]);
    ParseFirstLine(r, rest + [Newline]);
  }

  lemma ParseTornFirstLine(r: Record, tail: seq<Cell>, n: nat)
    requires n <= Width(r)
    ensures var cells := (Line(r) + [Newline] + tail)[..n];
            var whole := if n == Width(r) then [r] else [];
            Parse(cells) == whole && Parse(cells + [Newline]) == whole
  {
    var cells := Line(r)[..n];
    assert (Line(r) + [Newline] + tail)[..n] == cells;
    assert cells + [Newline] == cells + [Newline] + [];
    ParseFirst(cells, []);
    if n < Width(r) { TornLineParsesToNothing(r, n); } else { assert cells == Line(r); ParseOneLine(r); }
  }
}
