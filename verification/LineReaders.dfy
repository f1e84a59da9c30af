/** The transcript's readers: the whole-file parser, and the two streaming readers that
    stop early. `parseHeader` and `parseEntry` stand for the JSON decoders: everything
    here holds of any two, as long as every reader uses the same pair. */
module LineReaders {
  import opened Records
  import opened Utf8
  import opened Whitespace

  datatype Transcript<H, E> = Transcript(header: Option<H>, entries: seq<E>)

  function FirstIndex<T(==)>(xs: seq<T>, x: T): (k: nat)
    ensures k <= |xs|
    ensures k < |xs| ==> xs[k] == x
    ensures forall i :: 0 <= i < k ==> xs[i] != x
  {
    if xs == [] || xs[0] == x then 0 else 1 + FirstIndex(xs[1..], x)
  }

  function DropCarriageReturn(line: string): string {
    if line != [] && line[|line| - 1] == '\r' then line[..|line| - 1] else line
  }

  /** `str::lines`: split at each newline, dropping it and a carriage return before it;
      a final line needs no newline, and a final newline starts no line. */
  function Lines(text: string): (lines: seq<string>)
    decreases |text|
  {
    if text == [] then []
    else
      var k := FirstIndex(text, '\n');
      if k == |text| then [text] else [DropCarriageReturn(text[..k])] + Lines(text[k + 1..])
  }

  /** The whole-file parse of the lines still to come, `header` being the one found so far:
      the first header line is the header, and every other line that parses is an entry. */
  function ParseLines<H, E>(lines: seq<string>, header: Option<H>,
                            parseHeader: string -> Option<H>, parseEntry: string -> Option<E>): (t: Transcript<H, E>)
    ensures header.Some? ==> t.header == header
    decreases |lines|
  {
    if lines == [] then Transcript(header, [])
    else
      var line := Trim(lines[0]);
      if line == [] then ParseLines(lines[1..], header, parseHeader, parseEntry)
      else if header.None? && parseHeader(line).Some? then
        ParseLines(lines[1..], parseHeader(line), parseHeader, parseEntry)
      else
        var rest := ParseLines(lines[1..], header, parseHeader, parseEntry);
        if parseEntry(line).Some? then rest.(entries := [parseEntry(line).value] + rest.entries) else rest
  }

  /** A transcript file read whole: decoded, split into lines, parsed. */
  function ReadWhole<H, E>(bytes: seq<byte>, header: Option<H>,
                           parseHeader: string -> Option<H>, parseEntry: string -> Option<E>): Transcript<H, E> {
    ParseLines(Lines(Decode(bytes)), header, parseHeader, parseEntry)
  }

  // ---- What a parse finds, line by line -------------------------------------------

  predicate ParsesAt<R>(lines: seq<string>, k: nat, parse: string -> Option<R>)
    requires k < |lines|
  {
    Trim(lines[k]) != [] && parse(Trim(lines[k])).Some?
  }

  /** Line `k` is the header's: the first that parses as one. */
  predicate HeaderAt<H>(lines: seq<string>, k: nat, parseHeader: string -> Option<H>)
    requires k < |lines|
  {
    ParsesAt(lines, k, parseHeader) && forall j :: 0 <= j < k ==> !ParsesAt(lines, j, parseHeader)
  }

  predicate EntryAt<H, E>(lines: seq<string>, k: nat, parseHeader: string -> Option<H>, parseEntry: string -> Option<E>)
    requires k < |lines|
  {
    ParsesAt(lines, k, parseEntry) && !HeaderAt(lines, k, parseHeader)
  }

  /** The header found in the first `n` lines: the header line's, if there is one. */
  ghost predicate HeaderReads<H>(lines: seq<string>, n: nat, header: Option<H>, parseHeader: string -> Option<H>)
    requires n <= |lines|
  {
    if header.None? then forall k :: 0 <= k < n ==> !ParsesAt(lines, k, parseHeader)
    else exists k :: 0 <= k < n && HeaderAt(lines, k, parseHeader) && header == parseHeader(Trim(lines[k]))
  }

  /** The entries of the first `n` lines: those of the lines `at`, which are the entry lines, all
      of them, in file order. */
  ghost predicate EntriesRead<H, E>(lines: seq<string>, n: nat, entries: seq<E>, at: seq<nat>,
                                    parseHeader: string -> Option<H>, parseEntry: string -> Option<E>)
    requires n <= |lines|
  {
    && |at| == |entries|
    && (forall i :: 0 <= i < |at| ==>
          at[i] < n && EntryAt(lines, at[i], parseHeader, parseEntry)
          && entries[i] == parseEntry(Trim(lines[at[i]])).value)
    && (forall i, j :: 0 <= i < j < |at| ==> at[i] < at[j])
    && (forall k :: 0 <= k < n && EntryAt(lines, k, parseHeader, parseEntry) ==> k in at)
  }

  /** The first `n` lines as a transcript. */
  ghost predicate ReadsAs<H, E>(lines: seq<string>, n: nat, t: Transcript<H, E>, at: seq<nat>,
                                parseHeader: string -> Option<H>, parseEntry: string -> Option<E>)
    requires n <= |lines|
  {
    HeaderReads(lines, n, t.header, parseHeader) && EntriesRead(lines, n, t.entries, at, parseHeader, parseEntry)
  }

  lemma HeaderGoesOn<H>(lines: seq<string>, n: nat, header: Option<H>, parseHeader: string -> Option<H>)
    requires n < |lines| && HeaderReads(lines, n, header, parseHeader)
    ensures header.Some? ==> HeaderReads(lines, n + 1, header, parseHeader) && !HeaderAt(lines, n, parseHeader)
    ensures header.None? && !ParsesAt(lines, n, parseHeader) ==> HeaderReads(lines, n + 1, header, parseHeader)
    ensures header.None? && ParsesAt(lines, n, parseHeader) ==>
              HeaderAt(lines, n, parseHeader) && HeaderReads(lines, n + 1, parseHeader(Trim(lines[n])), parseHeader)
  {
  }

  lemma NoEntryThere<H, E>(lines: seq<string>, n: nat, entries: seq<E>, at: seq<nat>,
                           parseHeader: string -> Option<H>, parseEntry: string -> Option<E>)
    requires n < |lines| && EntriesRead(lines, n, entries, at, parseHeader, parseEntry)
    requires !EntryAt(lines, n, parseHeader, parseEntry)
    ensures EntriesRead(lines, n + 1, entries, at, parseHeader, parseEntry)
  {
  }

  lemma EntryThere<H, E>(lines: seq<string>, n: nat, entries: seq<E>, at: seq<nat>,
                         parseHeader: string -> Option<H>, parseEntry: string -> Option<E>)
    requires n < |lines| && EntriesRead(lines, n, entries, at, parseHeader, parseEntry)
    requires EntryAt(lines, n, parseHeader, parseEntry)
    ensures EntriesRead(lines, n + 1, entries + [parseEntry(Trim(lines[n])).value], at + [n], parseHeader, parseEntry)
  {
    var more := at + [n];
    forall k | 0 <= k < n + 1 && EntryAt(lines, k, parseHeader, parseEntry) ensures k in more {
      if k < n { assert k in at; } else { assert more[|at|] == k; }
    }
  }

  /** What a parse of the lines from `n` on adds to `t`. */
  function ParsedOn<H, E>(lines: seq<string>, n: nat, t: Transcript<H, E>,
                          parseHeader: string -> Option<H>, parseEntry: string -> Option<E>): Transcript<H, E>
    requires n <= |lines|
  {
    var rest := ParseLines(lines[n..], t.header, parseHeader, parseEntry);
    Transcript(rest.header, t.entries + rest.entries)
  }

  lemma {:induction false} ParsedOneOn<H, E>(lines: seq<string>, n: nat, t: Transcript<H, E>,
                                             parseHeader: string -> Option<H>, parseEntry: string -> Option<E>)
    returns (next: Transcript<H, E>)
    requires n < |lines|
    ensures ParsedOn(lines, n, t, parseHeader, parseEntry) == ParsedOn(lines, n + 1, next, parseHeader, parseEntry)
    ensures t.header.None? && ParsesAt(lines, n, parseHeader) ==> next == t.(header := parseHeader(Trim(lines[n])))
    ensures !(t.header.None? && ParsesAt(lines, n, parseHeader)) && ParsesAt(lines, n, parseEntry) ==>
              next == t.(entries := t.entries + [parseEntry(Trim(lines[n])).value])
    ensures !(t.header.None? && ParsesAt(lines, n, parseHeader)) && !ParsesAt(lines, n, parseEntry) ==> next == t
  {
    assert lines[n..][1..] == lines[n + 1..] && lines[n..][0] == lines[n];
    if t.header.None? && ParsesAt(lines, n, parseHeader) {
      next := t.(header := parseHeader(Trim(lines[n])));
    } else if ParsesAt(lines, n, parseEntry) {
      var entry := parseEntry(Trim(lines[n])).value;
      next := t.(entries := t.entries + [entry]);
      var rest := ParseLines(lines[n + 1..], t.header, parseHeader, parseEntry);
      assert t.entries + ([entry] + rest.entries) == (t.entries + [entry]) + rest.entries;
    } else {
      next := t;
    }
  }

  lemma ReadsOneOn<H, E>(lines: seq<string>, n: nat, t: Transcript<H, E>, at: seq<nat>,
                         parseHeader: string -> Option<H>, parseEntry: string -> Option<E>, next: Transcript<H, E>)
    returns (more: seq<nat>)
    requires n < |lines| && ReadsAs(lines, n, t, at, parseHeader, parseEntry)
    requires t.header.None? && ParsesAt(lines, n, parseHeader) ==> next == t.(header := parseHeader(Trim(lines[n])))
    requires !(t.header.None? && ParsesAt(lines, n, parseHeader)) && ParsesAt(lines, n, parseEntry) ==>
               next == t.(entries := t.entries + [parseEntry(Trim(lines[n])).value])
    requires !(t.header.None? && ParsesAt(lines, n, parseHeader)) && !ParsesAt(lines, n, parseEntry) ==> next == t
    ensures ReadsAs(lines, n + 1, next, more, parseHeader, parseEntry)
  {
    HeaderGoesOn(lines, n, t.header, parseHeader);
    if EntryAt(lines, n, parseHeader, parseEntry) {
      EntryThere(lines, n, t.entries, at, parseHeader, parseEntry);
      more := at + [n];
    } else {
      NoEntryThere(lines, n, t.entries, at, parseHeader, parseEntry);
      more := at;
    }
  }

  /** The parse of the lines from `n` on, after what the first `n` read as, reads the whole. */
  lemma {:induction false} ReadsOn<H, E>(lines: seq<string>, n: nat, t: Transcript<H, E>, at: seq<nat>,
                                         parseHeader: string -> Option<H>, parseEntry: string -> Option<E>)
    returns (all: seq<nat>)
    requires n <= |lines| && ReadsAs(lines, n, t, at, parseHeader, parseEntry)
    ensures ReadsAs(lines, |lines|, ParsedOn(lines, n, t, parseHeader, parseEntry), all, parseHeader, parseEntry)
    decreases |lines| - n
  {
    if n == |lines| {
      all := at;
      assert t.entries + [] == t.entries;
    } else {
      var next := ParsedOneOn(lines, n, t, parseHeader, parseEntry);
      var more := ReadsOneOn(lines, n, t, at, parseHeader, parseEntry, next);
      all := ReadsOn(lines, n + 1, next, more, parseHeader, parseEntry);
    }
  }

  /** What a file's lines parse to, exactly: the header is that of the first line that parses as
      one, and the entries are those of all other lines that parse as entries, in file order. */
  lemma ParseReads<H, E>(lines: seq<string>, parseHeader: string -> Option<H>, parseEntry: string -> Option<E>)
    returns (at: seq<nat>)
    ensures ReadsAs(lines, |lines|, ParseLines(lines, None, parseHeader, parseEntry), at, parseHeader, parseEntry)
  {
    assert lines[0..] == lines;
    at := ReadsOn(lines, 0, Transcript(None, []), [], parseHeader, parseEntry);
    var t := ParseLines(lines, None, parseHeader, parseEntry);
    assert [] + t.entries == t.entries;
  }

  method ParseTranscript<H, E>(content: string, parseHeader: string -> Option<H>, parseEntry: string -> Option<E>)
    returns (t: Transcript<H, E>)
    ensures t == ParseLines(Lines(content), None, parseHeader, parseEntry)
    ensures exists at :: ReadsAs(Lines(content), |Lines(content)|, t, at, parseHeader, parseEntry)
  {
    var lines := Lines(content);
    ghost var at := ParseReads(lines, parseHeader, parseEntry);
    t := Transcript(None, []);
    for i := 0 to |lines|
      invariant var rest := ParseLines(lines[i..], t.header, parseHeader, parseEntry);
                Transcript(rest.header, t.entries + rest.entries)
                == ParseLines(lines, None, parseHeader, parseEntry)
    {
      var line := Trim(lines[i]);
      assert lines[i..][1..] == lines[i + 1..];
      if line == [] { continue; }
      if t.header.None? {
        var header := parseHeader(line);
        if header.Some? {
          t := t.(header := header);
          continue;
        }
      }
      var entry := parseEntry(line);
      if entry.Some? {
        ghost var rest := ParseLines(lines[i + 1..], t.header, parseHeader, parseEntry);
        assert t.entries + ([entry.value] + rest.entries) == (t.entries + [entry.value]) + rest.entries;
        t := t.(entries := t.entries + [entry.value]);
      }
    }
  }

  // ---- A line at a time --------------------------------------------------------

  /** `read_until`: through the first newline byte, or to the end. */
  function FirstChunk(bytes: seq<byte>): (chunk: seq<byte>)
    requires bytes != []
    ensures 0 < |chunk| <= |bytes| && chunk == bytes[..|chunk|]
  {
    var k := FirstIndex(bytes, NEWLINE);
    if k == |bytes| then bytes else bytes[..k + 1]
  }

  lemma LinesAtNewline(a: string, b: string)
    requires '\n' !in a
    ensures Lines(a + ['\n'] + b) == [DropCarriageReturn(a)] + Lines(b)
  {
    var text := a + ['\n'] + b;
    var k := FirstIndex(text, '\n');
    assert text[|a|] == '\n' && forall i :: 0 <= i < |a| ==> text[i] == a[i];
    assert k == |a| && text[..k] == a && text[k + 1..] == b;
  }

  lemma TrimCarriageReturn(line: string)
    ensures Trim(DropCarriageReturn(line)) == Trim(line)
  {
    if line != [] && line[|line| - 1] == '\r' {
      TrimAppend(line[..|line| - 1], '\r');
      assert line[..|line| - 1] + ['\r'] == line;
    }
  }

  /** The first line of the decoded file and the first chunk decoded on its own trim to
      the same text, and the rest of the lines are those of the rest of the bytes. */
  lemma FirstChunkIsFirstLine(bytes: seq<byte>)
    requires bytes != []
    ensures var chunk := FirstChunk(bytes);
            var lines := Lines(Decode(bytes));
            && lines != []
            && Trim(lines[0]) == Trim(Decode(chunk))
            && lines[1..] == Lines(Decode(bytes[|chunk|..]))
  {
    var k := FirstIndex(bytes, NEWLINE);
    NoNewlineDecoded(bytes[..k]);
    if k == |bytes| {
      assert bytes[..k] == bytes && bytes[|bytes|..] == [];
      var text := Decode(bytes);
      assert FirstIndex(text, '\n') == |text|;
      assert Lines(text) == [text];
    } else {
      var a, b := bytes[..k], bytes[k + 1..];
      assert bytes == a + [NEWLINE] + b && FirstChunk(bytes) == a + [NEWLINE] + [];
      DecodeAtNewline(a, b);
      DecodeAtNewline(a, []);
      LinesAtNewline(Decode(a), Decode(b));
      TrimCarriageReturn(Decode(a));
      TrimAppend(Decode(a), '\n');
      assert Decode(FirstChunk(bytes)) == Decode(a) + ['\n'];
    }
  }

  /** The header reader stops at the first header line, and answers what reading the
      whole file, however torn or corrupt, would have answered. */
  method ReadHeader<H, E>(bytes: seq<byte>, parseHeader: string -> Option<H>, ghost parseEntry: string -> Option<E>)
    returns (header: Option<H>)
    ensures header == ReadWhole(bytes, None, parseHeader, parseEntry).header
  {
    header := None;
    var rest := bytes;
    while rest != []
      invariant header.None?
      invariant ReadWhole(rest, None, parseHeader, parseEntry).header
             == ReadWhole(bytes, None, parseHeader, parseEntry).header
      decreases |rest|
    {
      var chunk := FirstChunk(rest);
      var line := Trim(Decode(chunk));
      FirstChunkIsFirstLine(rest);
      if line != [] {
        header := parseHeader(line);
        if header.Some? { return; }
      }
      rest := rest[|chunk|..];
    }
  }

  /** The entry test stops at the first entry, and answers whether reading the whole file
      would have found any. */
  method HasEntries<H, E>(bytes: seq<byte>, parseHeader: string -> Option<H>, parseEntry: string -> Option<E>)
    returns (found: bool)
    ensures found <==> ReadWhole(bytes, None, parseHeader, parseEntry).entries != []
  {
    var headerSeen: bool := false;
    ghost var header: Option<H> := None;
    var rest := bytes;
    while rest != []
      invariant headerSeen <==> header.Some?
      invariant ReadWhole(rest, header, parseHeader, parseEntry).entries
             == ReadWhole(bytes, None, parseHeader, parseEntry).entries
      decreases |rest|
    {
      var chunk := FirstChunk(rest);
      var line := Trim(Decode(chunk));
      FirstChunkIsFirstLine(rest);
      if line != [] {
        if !headerSeen && parseHeader(line).Some? {
          headerSeen := true;
          header := parseHeader(line);
        } else if parseEntry(line).Some? {
          return true;
        }
      }
      rest := rest[|chunk|..];
    }
    return false;
  }
}
