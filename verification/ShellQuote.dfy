/** Single-quoting a value for a POSIX shell, against the shell's own reading of it: token
    recognition with the quoting of sections 2.2.1 to 2.2.3 of the Shell Command Language. */
module ShellQuoting {
  import opened Records

  /** Reading state. `Beyond`: an expansion has begun, and nothing is said from there on. */
  datatype Mode = Unquoted | Escaped | Single | Double | DoubleEscaped | Comment | Beyond

  datatype Token = Word(text: string) | Operator(symbol: char)

  /** The word being read, if one has begun (it may be empty), and the tokens before it. */
  datatype Lexer = Lexer(mode: Mode, word: Option<string>, tokens: seq<Token>)

  const START := Lexer(Unquoted, None, [])

  predicate IsBlank(c: char) { c == ' ' || c == '\t' }

  predicate IsOperator(c: char) { c in {'\n', '&', '|', ';', '(', ')', '<', '>'} }

  /** Characters that are themselves in an unquoted word. */
  predicate IsLiteral(c: char) {
    !IsBlank(c) && !IsOperator(c) && c !in {'\'', '"', '\\', '$', '`', '#'}
  }

  function SoFar(l: Lexer): string {
    if l.word.Some? then l.word.value else ""
  }

  function Append(l: Lexer, text: string): Lexer {
    l.(word := Some(SoFar(l) + text))
  }

  function EndWord(l: Lexer): Lexer {
    if l.word.None? then l else l.(word := None, tokens := l.tokens + [Word(l.word.value)])
  }

  function FeedUnquoted(l: Lexer, c: char): Lexer {
    if IsBlank(c) then EndWord(l)
    else if IsOperator(c) then EndWord(l).(tokens := EndWord(l).tokens + [Operator(c)])
    else if c == '\'' then Append(l, "").(mode := Single)
    else if c == '"' then Append(l, "").(mode := Double)
    else if c == '\\' then l.(mode := Escaped)
    else if c == '$' || c == '`' then l.(mode := Beyond)
    else if c == '#' && l.word.None? then l.(mode := Comment)
    else Append(l, [c])
  }

  function FeedDouble(l: Lexer, c: char): Lexer {
    if c == '"' then l.(mode := Unquoted)
    else if c == '\\' then l.(mode := DoubleEscaped)
    else if c == '$' || c == '`' then l.(mode := Beyond)
    else Append(l, [c])
  }

  function Feed(l: Lexer, c: char): Lexer {
    match l.mode
    case Unquoted => FeedUnquoted(l, c)
    case Escaped => if c == '\n' then l.(mode := Unquoted) else Append(l, [c]).(mode := Unquoted)
    case Single => if c == '\'' then l.(mode := Unquoted) else Append(l, [c])
    case Double => FeedDouble(l, c)
    case DoubleEscaped =>
      (if c == '\n' then l
       else if c in {'$', '`', '"', '\\'} then Append(l, [c])
       else Append(l, ['\\', c])).(mode := Double)
    case Comment => if c == '\n' then l.(mode := Unquoted, tokens := l.tokens + [Operator(c)]) else l
    case Beyond => l
  }

  function FeedAll(l: Lexer, text: string): Lexer
    decreases |text|
  {
    if text == [] then l else FeedAll(Feed(l, text[0]), text[1..])
  }

  lemma {:induction false} FeedAppend(l: Lexer, a: string, b: string)
    ensures FeedAll(l, a + b) == FeedAll(FeedAll(l, a), b)
    decreases |a|
  {
    if a == [] { assert a + b == b; }
    else {
      assert (a + b)[1..] == a[1..] + b;
      FeedAppend(Feed(l, a[0]), a[1..], b);
    }
  }

  // ---- Quoting -----------------------------------------------------------------

  /** An inner quote closes the literal, stands escaped on its own, and opens it again. */
  function QuotedChar(c: char): string {
    if c == '\'' then "'\\''" else [c]
  }

  function QuotedBody(s: string): string {
    if s == [] then "" else QuotedBody(s[..|s| - 1]) + QuotedChar(s[|s| - 1])
  }

  function Quoted(s: string): string {
    "'" + QuotedBody(s) + "'"
  }

  method ShSingleQuote(s: string) returns (out: string)
    ensures out == Quoted(s)
  {
    out := "'";
    for i := 0 to |s|
      invariant out == "'" + QuotedBody(s[..i])
    {
      assert s[..i + 1][..i] == s[..i];
      if s[i] == '\'' {
        out := out + "'\\''";
      } else {
        out := out + [s[i]];
      }
    }
    assert s[..|s|] == s;
    out := out + "'";
  }

  lemma FeedOne(l: Lexer, c: char)
    ensures FeedAll(l, [c]) == Feed(l, c)
  {
    assert [c][1..] == [];
  }

  lemma FeedTwo(l: Lexer, c: char, d: char)
    ensures FeedAll(l, [c, d]) == Feed(Feed(l, c), d)
  {
    assert [c, d] == [c] + [d];
    FeedAppend(l, [c], [d]);
    FeedOne(l, c);
    FeedOne(Feed(l, c), d);
  }

  lemma FeedThree(l: Lexer, a: string, b: string, c: string)
    ensures FeedAll(l, a + b + c) == FeedAll(FeedAll(FeedAll(l, a), b), c)
  {
    FeedAppend(l, a + b, c);
    FeedAppend(l, a, b);
  }

  lemma CharReadsBack(l: Lexer, c: char)
    requires l.mode.Single? && l.word.Some?
    ensures FeedAll(l, QuotedChar(c)) == Append(l, [c])
  {
    if c == '\'' {
      var closed := FeedAll(l, ['\'', '\\']);
      FeedTwo(l, '\'', '\\');
      FeedTwo(closed, '\'', '\'');
      FeedAppend(l, ['\'', '\\'], ['\'', '\'']);
      assert QuotedChar(c) == ['\'', '\\'] + ['\'', '\''];
      assert l.word.value + ['\''] + "" == l.word.value + ['\''];
    } else {
      FeedOne(l, c);
    }
  }

  lemma {:induction false} BodyReadsBack(l: Lexer, s: string)
    requires l.mode.Single? && l.word.Some?
    ensures FeedAll(l, QuotedBody(s)) == l.(word := Some(l.word.value + s))
  {
    if s == [] {
      assert l.word.value + s == l.word.value;
    } else {
      var init, c := s[..|s| - 1], s[|s| - 1];
      BodyReadsBack(l, init);
      var m := l.(word := Some(l.word.value + init));
      FeedAppend(l, QuotedBody(init), QuotedChar(c));
      CharReadsBack(m, c);
      assert l.word.value + init + [c] == l.word.value + s;
    }
  }

  lemma FeedQuoted(l: Lexer, s: string)
    ensures FeedAll(l, Quoted(s)) == Feed(FeedAll(Feed(l, '\''), QuotedBody(s)), '\'')
  {
    FeedThree(l, ['\''], QuotedBody(s), ['\'']);
    FeedOne(l, '\'');
    FeedOne(FeedAll(Feed(l, '\''), QuotedBody(s)), '\'');
  }

  /** Whatever was read before, in unquoted state a quoted value is read as exactly that value,
      one segment of one word, and leaves the state unquoted. */
  lemma QuotedReadsBack(l: Lexer, s: string)
    requires l.mode.Unquoted?
    ensures FeedAll(l, Quoted(s)) == Append(l, s)
  {
    FeedQuoted(l, s);
    var inside := Feed(l, '\'');
    assert SoFar(l) + "" == SoFar(l);
    assert inside == Lexer(Single, Some(SoFar(l)), l.tokens);
    BodyReadsBack(inside, s);
  }

  /** In any surrounding text: what follows is read as if the bare value had been appended. */
  lemma QuotedAnywhere(before: string, s: string, after: string)
    requires FeedAll(START, before).mode.Unquoted?
    ensures FeedAll(START, before + Quoted(s) + after) == FeedAll(Append(FeedAll(START, before), s), after)
  {
    FeedThree(START, before, Quoted(s), after);
    QuotedReadsBack(FeedAll(START, before), s);
  }

  // ---- The helper script's command line ----------------------------------------

  predicate AllLiteral(w: string) {
    forall i :: 0 <= i < |w| ==> IsLiteral(w[i])
  }

  lemma {:induction false} LiteralReadsBack(l: Lexer, w: string)
    requires l.mode.Unquoted? && AllLiteral(w) && w != ""
    ensures FeedAll(l, w) == Append(l, w)
    decreases |w|
  {
    var next := Feed(l, w[0]);
    assert next == Append(l, [w[0]]);
    if w[1..] == "" {
      assert w == [w[0]];
    } else {
      LiteralReadsBack(next, w[1..]);
      assert SoFar(l) + [w[0]] + w[1..] == SoFar(l) + w;
    }
  }

  /** A word as a script writes it: as it is, or quoted. */
  datatype Piece = Bare(word: string) | Quote(value: string)

  function Written(p: Piece): string {
    if p.Bare? then p.word else Quoted(p.value)
  }

  function ReadAs(p: Piece): string {
    if p.Bare? then p.word else p.value
  }

  /** The pieces, a blank after each. */
  function Text(pieces: seq<Piece>): string {
    if pieces == [] then "" else Written(pieces[0]) + [' '] + Text(pieces[1..])
  }

  function Words(pieces: seq<Piece>): seq<Token> {
    if pieces == [] then [] else [Word(ReadAs(pieces[0]))] + Words(pieces[1..])
  }

  ghost predicate Writable(p: Piece) {
    p.Bare? ==> p.word != "" && AllLiteral(p.word)
  }

  lemma PieceReads(l: Lexer, p: Piece)
    requires l.mode.Unquoted? && l.word.None? && Writable(p)
    ensures FeedAll(l, Written(p) + [' ']) == l.(tokens := l.tokens + [Word(ReadAs(p))])
  {
    if p.Bare? { LiteralReadsBack(l, p.word); } else { QuotedReadsBack(l, p.value); }
    FeedAppend(l, Written(p), [' ']);
    FeedOne(Append(l, ReadAs(p)), ' ');
    assert "" + ReadAs(p) == ReadAs(p);
  }

  /** A command line of bare words and quoted values reads as exactly those words, whatever
      the values contain and whatever comes before and after. */
  lemma {:induction false} LineReads(l: Lexer, pieces: seq<Piece>, rest: string)
    requires l.mode.Unquoted? && l.word.None? && forall p <- pieces :: Writable(p)
    ensures FeedAll(l, Text(pieces) + rest) == FeedAll(l.(tokens := l.tokens + Words(pieces)), rest)
    decreases |pieces|
  {
    if pieces == [] {
      assert "" + rest == rest && l.tokens + [] == l.tokens;
    } else {
      var first, read := Written(pieces[0]) + [' '], [Word(ReadAs(pieces[0]))];
      PieceReads(l, pieces[0]);
      LineReads(l.(tokens := l.tokens + read), pieces[1..], rest);
      FeedAppend(l, first, Text(pieces[1..]) + rest);
      AssociateConcat(first, Text(pieces[1..]), rest);
      AssociateConcat(l.tokens, read, Words(pieces[1..]));
    }
  }

  /** The command line of the generated helper script, up to the redirection. */
  function HelperLine(binary: string, dataDir: string): seq<Piece> {
    [Bare("exec"), Quote(binary), Bare("--credential-helper"), Bare("--data-dir"), Quote(dataDir)]
  }

  lemma HelperWords(binary: string, dataDir: string)
    ensures Words(HelperLine(binary, dataDir)) ==
            [Word("exec"), Word(binary), Word("--credential-helper"), Word("--data-dir"), Word(dataDir)]
  {
    var p := HelperLine(binary, dataDir);
    assert p[1..][1..] == p[2..] && p[2..][1..] == p[3..] && p[3..][1..] == p[4..] && p[4..][1..] == [];
    assert Words(p[4..]) == [Word(dataDir)];
    assert Words(p[2..]) == [Word("--credential-helper")] + ([Word("--data-dir")] + Words(p[4..]));
  }

  lemma HelperWritable(binary: string, dataDir: string)
    ensures forall p <- HelperLine(binary, dataDir) :: Writable(p)
  {
    assert AllLiteral("exec") && AllLiteral("--credential-helper") && AllLiteral("--data-dir");
  }

  lemma HelperLineReads(l: Lexer, line: seq<Piece>, binary: string, dataDir: string, rest: string)
    requires l.mode.Unquoted? && l.word.None? && line == HelperLine(binary, dataDir)
    ensures FeedAll(l, Text(line) + rest)
            == FeedAll(l.(tokens := l.tokens + [Word("exec"), Word(binary), Word("--credential-helper"),
                                                Word("--data-dir"), Word(dataDir)]), rest)
  {
    HelperWords(binary, dataDir);
    HelperWritable(binary, dataDir);
    LineReads(l, line, rest);
  }
}
