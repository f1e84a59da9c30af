/** The cap on the rendered tree, and which refs survive it. */
module TextCaps {
  import opened Records

  /** `lastIndexOf("\n", at)`: the last newline at or before `at`, or -1. */
  function LastNewline(text: string, at: int): (k: int)
    requires at < |text|
    ensures k == -1 || (0 <= k <= at && text[k] == '\n')
    ensures forall i :: k < i <= at && 0 <= i ==> text[i] != '\n'
    decreases at + 1
  {
    if at < 0 then -1 else if text[at] == '\n' then at else LastNewline(text, at - 1)
  }

  predicate IsCut(text: string, max: Option<int>) {
    max.Some? && 0 < max.value < |text|
  }

  /** `truncate`: the text, cut at a line boundary when there is one past its start. */
  function Truncate(text: string, max: Option<int>): (kept: string)
    ensures kept <= text
    ensures max.Some? && max.value > 0 ==> |kept| <= max.value
    ensures !IsCut(text, max) ==> kept == text
    ensures IsCut(text, max) && (exists i :: 0 < i <= max.value && text[i] == '\n') ==>
              kept != [] && text[|kept|] == '\n' && forall i :: |kept| < i <= max.value ==> text[i] != '\n'
    ensures IsCut(text, max) && (forall i :: 0 < i <= max.value ==> text[i] != '\n') ==> |kept| == max.value
  {
    if !IsCut(text, max) then text
    else
      var cut := LastNewline(text, max.value);
      if cut > 0 then text[..cut] else text[..max.value]
  }

  function Newlines(text: string): nat {
    if text == [] then 0 else (if text[0] == '\n' then 1 else 0) + Newlines(text[1..])
  }

  /** Where a line ends: at its newline, or with the text. */
  function LineEnd(text: string, line: nat): (k: nat)
    requires line <= Newlines(text)
    ensures k <= |text|
  {
    if text == [] then 0
    else if text[0] != '\n' then 1 + LineEnd(text[1..], line)
    else if line == 0 then 0
    else 1 + LineEnd(text[1..], line - 1)
  }

  /** Ending at or before a boundary is the same as being one of the lines up to it. */
  lemma {:induction false} EndsByBoundary(text: string, k: nat, line: nat)
    requires k <= |text| && (k == |text| || text[k] == '\n') && line <= Newlines(text)
    ensures LineEnd(text, line) <= k <==> line <= Newlines(text[..k])
  {
    if k > 0 {
      assert text[..k][0] == text[0] && text[..k][1..] == text[1..][..k - 1];
      if text[0] != '\n' { EndsByBoundary(text[1..], k - 1, line); }
      else if line > 0 { EndsByBoundary(text[1..], k - 1, line - 1); }
    }
  }

  /** With no newline up to `k`, no line ends there. */
  lemma {:induction false} NoneEndsBefore(text: string, k: nat, line: nat)
    requires k < |text| && (forall i :: 0 <= i <= k ==> text[i] != '\n') && line <= Newlines(text)
    ensures k < LineEnd(text, line)
  {
    if k > 0 { NoneEndsBefore(text[1..], k - 1, line); }
  }

  /** A line the renderer put a node on, and the node's ref if it has one. */
  datatype Node = Node(line: nat, ref: Option<string>)

  predicate KeepsWholeLines(rendered: string, kept: string) {
    |kept| == |rendered| || kept + "\n" <= rendered
  }

  /** The number of lines `shownRefs` counts in what was kept. */
  function LinesShown(rendered: string, kept: string): nat {
    if !KeepsWholeLines(rendered, kept) || kept == [] then 0 else Newlines(kept) + 1
  }

  ghost predicate IsShown(nodes: seq<Node>, lines: nat, ref: string) {
    exists i :: 0 <= i < |nodes| && nodes[i].line < lines && nodes[i].ref == Some(ref)
  }

  method ShownRefs(nodes: seq<Node>, rendered: string, kept: string) returns (shown: set<string>)
    ensures forall r :: r in shown <==> r != "" && IsShown(nodes, LinesShown(rendered, kept), r)
  {
    shown := {};
    if !KeepsWholeLines(rendered, kept) { return; }
    var lines := if |kept| == 0 then 0 else Newlines(kept) + 1;
    for i := 0 to |nodes|
      invariant forall r :: r in shown <==> r != "" && IsShown(nodes[..i], lines, r)
    {
      var node := nodes[i];
      if node.line < lines && node.ref.Some? && node.ref.value != "" { shown := shown + {node.ref.value}; }
      assert nodes[..i + 1] == nodes[..i] + [node];
      ShownNext(nodes[..i], node, lines);
    }
    assert nodes[..|nodes|] == nodes;
  }

  lemma ShownNext(nodes: seq<Node>, node: Node, lines: nat)
    ensures forall r :: IsShown(nodes + [node], lines, r) <==>
              IsShown(nodes, lines, r) || (node.line < lines && node.ref == Some(r))
  {
    forall r
      ensures IsShown(nodes + [node], lines, r) <==>
              IsShown(nodes, lines, r) || (node.line < lines && node.ref == Some(r))
    {
      if IsShown(nodes, lines, r) {
        var i :| 0 <= i < |nodes| && nodes[i].line < lines && nodes[i].ref == Some(r);
        assert (nodes + [node])[i] == nodes[i];
      }
      if node.line < lines && node.ref == Some(r) { assert (nodes + [node])[|nodes|] == node; }
    }
  }

  /** A line counts as shown exactly when all of it was kept: of a tree that was cut, for
      every line, if and only if the cut was not made at an empty first line. */
  lemma ShownIffWhollyKept(text: string, max: Option<int>)
    requires IsCut(text, max)
    ensures var kept := Truncate(text, max);
            (forall line: nat :: line <= Newlines(text) ==>
              (line < LinesShown(text, kept) <==> LineEnd(text, line) <= |kept|))
            <==> LastNewline(text, max.value) != 0
  {
    var kept, cut := Truncate(text, max), LastNewline(text, max.value);
    if cut > 0 {
      assert kept + "\n" == text[..cut + 1];
      forall line: nat | line <= Newlines(text)
        ensures line < LinesShown(text, kept) <==> LineEnd(text, line) <= |kept|
      {
        EndsByBoundary(text, cut, line);
      }
    } else {
      assert !KeepsWholeLines(text, kept) by {
        assert |kept| == max.value && text[max.value] != '\n' && (kept + "\n")[|kept|] == '\n';
      }
      if cut == 0 {
        var first: nat := 0;
        assert LineEnd(text, first) == 0 && LinesShown(text, kept) == 0;
        assert !(first < LinesShown(text, kept) <==> LineEnd(text, first) <= |kept|);
      } else {
        forall line: nat | line <= Newlines(text)
          ensures !(LineEnd(text, line) <= |kept|)
        {
          NoneEndsBefore(text, max.value, line);
        }
      }
    }
  }
}

/** The ref table of one document's world, the page under it, and the tokens a ref must quote. */
module BrowserRefs {
  import opened Records
  import opened Decimals
  import opened TextCaps

  /** What one look at the page generates: the text, its nodes by line, the element of each ref. */
  datatype Tree = Tree(rendered: string, nodes: seq<Node>, elements: map<string, nat>)

  /** What the world can see of the page: its address, history length, history entry id where
      the engine has the Navigation API, and which elements are connected. */
  datatype Page = Page(href: string, length: nat, entry: Option<nat>, connected: set<nat>)

  /** The module's variables. */
  datatype Table = Table(
    refs: map<string, nat>, superseded: set<string>, supersededToken: string, cutAway: set<string>,
    takenAt: string, lengthAt: nat, ticksAt: nat, entryAt: Option<nat>,
    ticks: nat, sequence: nat, token: string)

  const EMPTY_TABLE := Table(map[], {}, "", {}, "", 0, 0, None, 0, 0, "")

  /** The token of a snapshot: the world's generation, its number, and the host's epoch if it
      sent one, the empty one included. */
  function Token(generation: string, number: nat, epoch: Option<string>): string {
    var own := generation + "." + Decimal(number);
    if epoch.Some? then own + "." + epoch.value else own
  }

  /** Tokens of one world are injective in number and epoch; no epoch and an empty epoch differ. */
  lemma TokensDiffer(generation: string, m: nat, n: nat, d: Option<string>, e: Option<string>)
    requires Token(generation, m, d) == Token(generation, n, e)
    ensures m == n && d == e
  {
    var start := |generation| + 1;
    var x := if d.Some? then "." + d.value else "";
    var y := if e.Some? then "." + e.value else "";
    assert Token(generation, m, d)[start..] == Decimal(m) + x;
    assert Token(generation, n, e)[start..] == Decimal(n) + y;
    DecimalPrefix(m, n, x, y);
    if d.Some? && e.Some? { assert x[1..] == d.value && y[1..] == e.value; }
  }

  /** The refs of a tree whose lines a cut left in the answer. */
  ghost predicate Survives(tree: Tree, max: Option<int>, ref: string) {
    IsCut(tree.rendered, max) ==>
      ref != "" && IsShown(tree.nodes, LinesShown(tree.rendered, Truncate(tree.rendered, max)), ref)
  }

  ghost function Kept(tree: Tree, max: Option<int>): map<string, nat> {
    map r | r in tree.elements && Survives(tree, max, r) :: tree.elements[r]
  }

  /** `snapshot`: the table replaced wholesale. */
  ghost function Taken(t: Table, page: Page, generation: string,
                       tree: Tree, max: Option<int>, epoch: Option<string>): Table {
    var kept := Kept(tree, max);
    Table(kept, t.refs.Keys, t.token, tree.elements.Keys - kept.Keys,
          page.href, page.length, t.ticks, page.entry, t.ticks, t.sequence + 1,
          Token(generation, t.sequence + 1, epoch))
  }

  predicate AreCurrent(t: Table, page: Page, generation: string) {
    && t.token != "" && generation == t.token
    && page.href == t.takenAt && page.length == t.lengthAt
    && t.ticks == t.ticksAt && page.entry == t.entryAt
  }

  function ElementFor(t: Table, page: Page, generation: string, ref: string): Option<nat> {
    if AreCurrent(t, page, generation) && ref in t.refs && t.refs[ref] in page.connected then Some(t.refs[ref])
    else None
  }

  /** `stale`: whether a ref that is not answered is put down to the caller's own cap. */
  predicate BlamesCap(t: Table, page: Page, generation: string, ref: string) {
    && ref in t.cutAway && ref in t.superseded
    && (AreCurrent(t, page, generation) || (generation == t.supersededToken && page.href == t.takenAt))
  }

  /** Surviving and cut-away refs are the generated ones, split; and of a tree whose first
      line is not empty, a ref survives exactly when it is on a line wholly kept. */
  lemma CapSplitsRefs(t: Table, page: Page, generation: string,
                      tree: Tree, max: Option<int>, epoch: Option<string>, ref: string)
    requires ref in tree.elements && ref != ""
    requires forall node <- tree.nodes :: node.line <= Newlines(tree.rendered)
    requires IsCut(tree.rendered, max) ==> LastNewline(tree.rendered, max.value) != 0
    ensures var kept, taken := Truncate(tree.rendered, max), Taken(t, page, generation, tree, max, epoch);
            && taken.refs.Keys + taken.cutAway == tree.elements.Keys && taken.refs.Keys !! taken.cutAway
            && (ref in taken.refs ==> taken.refs[ref] == tree.elements[ref])
            && (IsCut(tree.rendered, max) ==>
                 (ref in taken.refs <==>
                    exists i :: 0 <= i < |tree.nodes| && tree.nodes[i].ref == Some(ref)
                                && LineEnd(tree.rendered, tree.nodes[i].line) <= |kept|))
            && (!IsCut(tree.rendered, max) ==> ref in taken.refs)
  {
    if IsCut(tree.rendered, max) { ShownIffWhollyKept(tree.rendered, max); }
  }

  // ---- Runs of one document ----------------------------------------------------

  datatype Snap = Snap(tree: Tree, max: Option<int>, epoch: Option<string>)

  /** The world and its page; the snapshots taken, and how many same-document navigations
      there have been since the last. History entry ids are handed out in order. */
  datatype World = World(table: Table, page: Page, taken: seq<Snap>, moves: nat, nextEntry: nat)

  /** `Pushes` and `Replaces` are the page's history calls, `HashMoves` a fragment change and
      `Traverses` a back or forward to an existing entry; the last two fire events the world
      hears. */
  datatype Step =
    | Snapshots(snap: Snap)
    | Pushes(href: string, length: nat)
    | Replaces(href: string)
    | HashMoves(href: string, length: nat)
    | Traverses(href: string, length: nat, entry: nat)
    | DomChanges(connected: set<nat>)

  ghost predicate IsStart(w: World) {
    w.table == EMPTY_TABLE && w.taken == [] && w.moves == 0 && (w.page.entry.Some? ==> w.page.entry.value < w.nextEntry)
  }

  predicate Enabled(w: World, t: Step) {
    t.Traverses? ==> t.entry < w.nextEntry
  }

  function FreshEntry(w: World): Option<nat> {
    if w.page.entry.Some? then Some(w.nextEntry) else None
  }

  function Ticked(t: Table): Table { t.(ticks := t.ticks + 1) }

  ghost function Do(w: World, generation: string, t: Step): World
    requires Enabled(w, t)
  {
    var p, next := w.page, w.nextEntry + 1;
    match t
    case Snapshots(s) =>
      w.(table := Taken(w.table, p, generation, s.tree, s.max, s.epoch), taken := w.taken + [s], moves := 0)
    case Pushes(href, length) =>
      w.(page := p.(href := href, length := length, entry := FreshEntry(w)), nextEntry := next, moves := w.moves + 1)
    case Replaces(href) =>
      w.(page := p.(href := href, entry := FreshEntry(w)), nextEntry := next, moves := w.moves + 1)
    case HashMoves(href, length) =>
      w.(page := p.(href := href, length := length, entry := FreshEntry(w)), nextEntry := next, moves := w.moves + 1,
         table := Ticked(w.table))
    case Traverses(href, length, entry) =>
      w.(page := p.(href := href, length := length, entry := if p.entry.Some? then Some(entry) else None),
         moves := w.moves + 1, table := Ticked(w.table))
    case DomChanges(connected) => w.(page := p.(connected := connected))
  }

  ghost predicate Runs(w: World, generation: string, steps: seq<Step>, end: World)
    decreases |steps|
  {
    if steps == [] then end == w
    else Enabled(w, steps[0]) && Runs(Do(w, generation, steps[0]), generation, steps[1..], end)
  }

  /** The table is what the last two snapshots left. */
  ghost predicate FromSnapshots(w: World, generation: string) {
    var t, n := w.table, |w.taken|;
    && t.sequence == n
    && (n == 0 ==> t.token == "" && t.refs == map[] && t.cutAway == {})
    && (n > 0 ==>
         && t.token == Token(generation, n, w.taken[n - 1].epoch)
         && t.refs == Kept(w.taken[n - 1].tree, w.taken[n - 1].max)
         && t.cutAway == w.taken[n - 1].tree.elements.Keys - t.refs.Keys)
    && (n == 1 ==> t.superseded == {})
    && (n > 1 ==>
         && t.supersededToken == Token(generation, n - 1, w.taken[n - 2].epoch)
         && t.superseded == Kept(w.taken[n - 2].tree, w.taken[n - 2].max).Keys)
  }

  /** With the Navigation API, a navigation since the snapshot shows: an event was heard, or
      the entry is one the snapshot cannot have seen. */
  ghost predicate MovesShow(w: World) {
    var t, p := w.table, w.page;
    && (p.entry.Some? ==> p.entry.value < w.nextEntry)
    && (t.entryAt.Some? ==> t.entryAt.value < w.nextEntry)
    && t.ticksAt <= t.ticks
    && (w.taken != [] && p.entry.Some? && w.moves > 0 ==> t.ticksAt < t.ticks || p.entry != t.entryAt)
  }

  lemma FromSnapshotsKept(w: World, generation: string, t: Step)
    requires Enabled(w, t) && FromSnapshots(w, generation)
    ensures FromSnapshots(Do(w, generation, t), generation)
  {
  }

  lemma MovesShowKept(w: World, generation: string, t: Step)
    requires Enabled(w, t) && MovesShow(w)
    ensures MovesShow(Do(w, generation, t))
  {
  }

  lemma {:induction false} RunsKeep(w: World, generation: string, steps: seq<Step>, end: World)
    requires FromSnapshots(w, generation) && MovesShow(w) && Runs(w, generation, steps, end)
    ensures FromSnapshots(end, generation) && MovesShow(end)
    ensures w.page.entry.Some? ==> end.page.entry.Some?
    decreases |steps|
  {
    if steps != [] {
      FromSnapshotsKept(w, generation, steps[0]);
      MovesShowKept(w, generation, steps[0]);
      RunsKeep(Do(w, generation, steps[0]), generation, steps[1..], end);
    }
  }

  /** Ref safety over whole runs: an answered ref quotes the token of the last snapshot and
      of no earlier one, was generated by it and survived its cut, names an element still
      connected, and, where the engine has the Navigation API, no same-document navigation
      has happened since, there-and-back ones included. */
  lemma RefSafety(start: World, generation: string, steps: seq<Step>, w: World, g: string, ref: string)
    requires IsStart(start) && Runs(start, generation, steps, w)
    requires ElementFor(w.table, w.page, g, ref).Some?
    ensures w.taken != []
    ensures forall n: nat, e :: g == Token(generation, n, e) ==> n == |w.taken| && e == w.taken[n - 1].epoch
    ensures g == Token(generation, |w.taken|, w.taken[|w.taken| - 1].epoch)
    ensures var last, el := w.taken[|w.taken| - 1], ElementFor(w.table, w.page, g, ref).value;
            && ref in last.tree.elements && last.tree.elements[ref] == el && Survives(last.tree, last.max, ref)
            && el in w.page.connected
    ensures start.page.entry.Some? ==> w.moves == 0
  {
    RunsKeep(start, generation, steps, w);
    forall n: nat, e | g == Token(generation, n, e)
      ensures n == |w.taken| && e == w.taken[n - 1].epoch
    {
      TokensDiffer(generation, n, |w.taken|, e, w.taken[|w.taken| - 1].epoch);
    }
  }

  /** A ref put down to the caller's own cap was indeed in the snapshot before the last,
      generated again by the last and cut from it; quoted with the last token, the page has
      not navigated since either. */
  lemma BlameIsJust(start: World, generation: string, steps: seq<Step>, w: World, g: string, ref: string)
    requires IsStart(start) && Runs(start, generation, steps, w) && BlamesCap(w.table, w.page, g, ref)
    ensures var n := |w.taken|;
            && n > 1
            && ref in Kept(w.taken[n - 2].tree, w.taken[n - 2].max)
            && ref in w.taken[n - 1].tree.elements && !Survives(w.taken[n - 1].tree, w.taken[n - 1].max, ref)
    ensures AreCurrent(w.table, w.page, g) && start.page.entry.Some? ==> w.moves == 0
  {
    RunsKeep(start, generation, steps, w);
  }

  /** While the page has not navigated since the last snapshot, the table matches it. */
  ghost predicate Matches(w: World) {
    var t, p := w.table, w.page;
    w.taken != [] && w.moves == 0 ==>
      t.takenAt == p.href && t.lengthAt == p.length && t.entryAt == p.entry && t.ticksAt == t.ticks
  }

  lemma {:induction false} RunsKeepMatches(w: World, generation: string, steps: seq<Step>, end: World)
    requires Matches(w) && Runs(w, generation, steps, end)
    ensures Matches(end)
    decreases |steps|
  {
    if steps != [] { RunsKeepMatches(Do(w, generation, steps[0]), generation, steps[1..], end); }
  }

  /** The snapshot generated the ref, and its cut left it in. */
  ghost predicate IsShownBy(snap: Snap, ref: string) {
    ref in snap.tree.elements && Survives(snap.tree, snap.max, ref)
  }

  /** A good ref is answered: one the last snapshot generated and showed, quoted with its token,
      names its element for as long as that is connected and the page has not navigated. */
  lemma GoodRefIsAnswered(start: World, generation: string, steps: seq<Step>, w: World, ref: string)
    requires IsStart(start) && Runs(start, generation, steps, w) && w.taken != [] && w.moves == 0
    requires IsShownBy(w.taken[|w.taken| - 1], ref) && w.taken[|w.taken| - 1].tree.elements[ref] in w.page.connected
    ensures var last := w.taken[|w.taken| - 1];
            ElementFor(w.table, w.page, Token(generation, |w.taken|, last.epoch), ref) == Some(last.tree.elements[ref])
  {
    RunsKeep(start, generation, steps, w);
    RunsKeepMatches(start, generation, steps, w);
    assert Token(generation, |w.taken|, w.taken[|w.taken| - 1].epoch)[|generation|] == '.';
  }

  predicate Heard(t: Step) { t.HashMoves? || t.Traverses? }

  /** The table is that of a snapshot of `page`, and `heard` navigation events came since. */
  ghost predicate SinceSnapshot(t: Table, page: Page, heard: nat, token: string, refs: map<string, nat>) {
    && t.takenAt == page.href && t.lengthAt == page.length && t.entryAt == page.entry
    && t.ticks == t.ticksAt + heard && t.token == token && t.refs == refs
  }

  function HeardIn(steps: seq<Step>): nat {
    if steps == [] then 0 else (if Heard(steps[0]) then 1 else 0) + HeardIn(steps[1..])
  }

  lemma {:induction false} StaysSinceSnapshot(w: World, generation: string, steps: seq<Step>, end: World,
                                              page: Page, heard: nat, token: string, refs: map<string, nat>)
    requires SinceSnapshot(w.table, page, heard, token, refs) && Runs(w, generation, steps, end)
    requires forall i :: 0 <= i < |steps| ==> !steps[i].Snapshots?
    ensures SinceSnapshot(end.table, page, heard + HeardIn(steps), token, refs)
    decreases |steps|
  {
    if steps != [] {
      StaysSinceSnapshot(Do(w, generation, steps[0]), generation, steps[1..], end, page,
                         heard + (if Heard(steps[0]) then 1 else 0), token, refs);
    }
  }

  /** What is answered, exactly, on any engine: after a snapshot and whatever followed it, a ref
      names its element if and only if it is quoted with that snapshot's token, the snapshot
      showed it, its element is connected, no fragment change or traversal was heard, and
      the page's address, history length and entry are those the snapshot was taken at. */
  lemma RefIsAnsweredIff(start: World, generation: string, before: seq<Step>, w: World, snap: Snap,
                         since: seq<Step>, end: World, g: string, ref: string)
    requires IsStart(start) && Runs(start, generation, before, w)
    requires Runs(Do(w, generation, Snapshots(snap)), generation, since, end)
    requires forall i :: 0 <= i < |since| ==> !since[i].Snapshots?
    ensures ElementFor(end.table, end.page, g, ref).Some? <==>
              && g == Token(generation, |w.taken| + 1, snap.epoch)
              && ref in snap.tree.elements && Survives(snap.tree, snap.max, ref)
              && snap.tree.elements[ref] in end.page.connected
              && HeardIn(since) == 0
              && end.page.href == w.page.href && end.page.length == w.page.length && end.page.entry == w.page.entry
    ensures ElementFor(end.table, end.page, g, ref).Some? ==>
              ElementFor(end.table, end.page, g, ref).value == snap.tree.elements[ref]
  {
    RunsKeep(start, generation, before, w);
    var token := Token(generation, |w.taken| + 1, snap.epoch);
    StaysSinceSnapshot(Do(w, generation, Snapshots(snap)), generation, since, end, w.page, 0, token,
                       Kept(snap.tree, snap.max));
    assert token[|generation|] == '.';
  }

  /** On a page that has not navigated since, a ref of either of the last two tokens that the
      snapshot before the last showed is put down to the cap exactly when the last generated
      it again and cut it. */
  lemma CutRefIsBlamed(start: World, generation: string, steps: seq<Step>, w: World, ref: string)
    requires IsStart(start) && Runs(start, generation, steps, w) && |w.taken| > 1 && w.moves == 0
    requires ref in Kept(w.taken[|w.taken| - 2].tree, w.taken[|w.taken| - 2].max)
    ensures var n, last := |w.taken|, w.taken[|w.taken| - 1];
            var cut := ref in last.tree.elements && !Survives(last.tree, last.max, ref);
            && (BlamesCap(w.table, w.page, Token(generation, n, last.epoch), ref) <==> cut)
            && (BlamesCap(w.table, w.page, Token(generation, n - 1, w.taken[n - 2].epoch), ref) <==> cut)
  {
    RunsKeep(start, generation, steps, w);
    RunsKeepMatches(start, generation, steps, w);
    assert Token(generation, |w.taken|, w.taken[|w.taken| - 1].epoch)[|generation|] == '.';
  }

  lemma {:induction false} RunsSnoc(w: World, generation: string, steps: seq<Step>, mid: World, t: Step)
    requires Runs(w, generation, steps, mid) && Enabled(mid, t)
    ensures Runs(w, generation, steps + [t], Do(mid, generation, t))
    decreases |steps|
  {
    if steps == [] {
      assert [t][1..] == [] && Runs(Do(mid, generation, t), generation, [], Do(mid, generation, t));
    } else {
      RunsSnoc(Do(w, generation, steps[0]), generation, steps[1..], mid, t);
      assert (steps + [t])[1..] == steps[1..] + [t];
    }
  }

  const TREE := Tree("x\ny", [Node(0, Some("e1")), Node(1, Some("e2"))], map["e1" := 7, "e2" := 8])

  /** Without the Navigation API the last claim of `RefSafety` fails: a `replaceState` away
      and back leaves nothing to see, and the ref is still answered. */
  lemma ReplaceAwayAndBack(generation: string, a: string, b: string) returns (start: World, steps: seq<Step>, w: World)
    ensures IsStart(start) && Runs(start, generation, steps, w)
    ensures w.moves == 2 && ElementFor(w.table, w.page, w.table.token, "e1") == Some(7)
  {
    start := World(EMPTY_TABLE, Page(a, 1, None, {7}), [], 0, 1);
    var look := Snapshots(Snap(TREE, None, None));
    var w1 := Do(start, generation, look);
    assert "e1" in w1.table.refs && w1.table.refs["e1"] == 7;
    var w2 := Do(w1, generation, Replaces(b));
    w, steps := Do(w2, generation, Replaces(a)), [look] + [Replaces(b)] + [Replaces(a)];
    RunsSnoc(start, generation, [], start, look);
    assert [] + [look] == [look];
    RunsSnoc(start, generation, [look], w1, Replaces(b));
    RunsSnoc(start, generation, [look] + [Replaces(b)], w2, Replaces(a));
  }

  /** Keeping one line of the example tree keeps its first ref only. */
  lemma CutTree()
    ensures Kept(TREE, None).Keys == {"e1", "e2"} && Kept(TREE, Some(1)).Keys == {"e1"}
  {
    assert LastNewline("x\ny", 1) == 1;
    assert Truncate("x\ny", Some(1)) == "x";
    assert "x" + "\n" <= "x\ny" && Newlines("x") == 0;
    assert LinesShown("x\ny", "x") == 1;
    assert TREE.nodes[0] == Node(0, Some("e1"));
    assert IsShown(TREE.nodes, 1, "e1") && !IsShown(TREE.nodes, 1, "e2");
  }

  /** Quoted with the token before the last, the blame only compares addresses: after a
      navigation away and back the caller is still told that the page has not changed. */
  lemma BlameOutlivesNavigation(generation: string, a: string, b: string) returns (start: World, steps: seq<Step>, w: World)
    ensures IsStart(start) && start.page.entry.Some? && Runs(start, generation, steps, w)
    ensures w.moves == 2 && BlamesCap(w.table, w.page, w.table.supersededToken, "e2")
  {
    start := World(EMPTY_TABLE, Page(a, 1, Some(0), {7, 8}), [], 0, 1);
    var look, peek := Snapshots(Snap(TREE, None, None)), Snapshots(Snap(TREE, Some(1), None));
    CutTree();
    var w1 := Do(start, generation, look);
    var w2 := Do(w1, generation, peek);
    assert w1.table.refs.Keys == {"e1", "e2"} && w2.table.superseded == {"e1", "e2"} && "e2" in w2.table.cutAway;
    var w3 := Do(w2, generation, Pushes(b, 2));
    w, steps := Do(w3, generation, Pushes(a, 3)), [look] + [peek] + [Pushes(b, 2)] + [Pushes(a, 3)];
    RunsSnoc(start, generation, [], start, look);
    assert [] + [look] == [look];
    RunsSnoc(start, generation, [look], w1, peek);
    RunsSnoc(start, generation, [look] + [peek], w2, Pushes(b, 2));
    RunsSnoc(start, generation, [look] + [peek] + [Pushes(b, 2)], w3, Pushes(a, 3));
  }
}

/** The module's variables as the source keeps them. */
module BrowserAgents {
  import opened Records
  import opened Decimals
  import opened TextCaps
  import opened BrowserRefs

  class BrowserAgent {
    const generation: string
    var refs: map<string, nat>
    var superseded: set<string>
    var supersededToken: string
    var cutAway: set<string>
    var takenAt: string
    var lengthAt: nat
    var ticksAt: nat
    var entryAt: Option<nat>
    var ticks: nat
    var sequence: nat
    var token: string

    function Value(): Table
      reads this
    {
      Table(refs, superseded, supersededToken, cutAway, takenAt, lengthAt, ticksAt, entryAt, ticks, sequence, token)
    }

    constructor (world: string)
      ensures generation == world && Value() == EMPTY_TABLE
    {
      generation := world;
      refs, superseded, supersededToken, cutAway := map[], {}, "", {};
      takenAt, lengthAt, ticksAt, entryAt, ticks, sequence, token := "", 0, 0, None, 0, 0, "";
    }

    /** Deletes every ref not shown, and names what was deleted. */
    method DropUnshown(elements: map<string, nat>, shown: set<string>) returns (next: map<string, nat>, cut: set<string>)
      ensures next == map r | r in elements && r in shown :: elements[r]
      ensures cut == elements.Keys - shown
    {
      next, cut := elements, {};
      var todo := elements.Keys;
      while todo != {}
        invariant todo <= elements.Keys
        invariant next == map r | r in elements && (r in todo || r in shown) :: elements[r]
        invariant cut == elements.Keys - todo - shown
        decreases |todo|
      {
        var ref :| ref in todo;
        todo := todo - {ref};
        if ref !in shown {
          next := next - {ref};
          cut := cut + {ref};
        }
      }
    }

    method CutRefs(tree: Tree, max: Option<int>) returns (next: map<string, nat>, cut: set<string>)
      ensures next == Kept(tree, max) && cut == tree.elements.Keys - next.Keys
    {
      if !IsCut(tree.rendered, max) {
        next, cut := tree.elements, {};
      } else {
        var shown := ShownRefs(tree.nodes, tree.rendered, Truncate(tree.rendered, max));
        next, cut := DropUnshown(tree.elements, shown);
      }
      assert forall r :: r in next <==> r in tree.elements && Survives(tree, max, r);
    }

    /** The token of the next snapshot. */
    method MintToken(epoch: Option<string>)
      modifies this`sequence, this`token
      ensures sequence == old(sequence) + 1 && token == Token(generation, sequence, epoch)
    {
      sequence := sequence + 1;
      var own := generation + "." + Decimal(sequence);
      token := if epoch.Some? then own + "." + epoch.value else own;
    }

    method Snapshot(page: Page, tree: Tree, max: Option<int>, epoch: Option<string>)
      returns (quote: string, text: string, truncated: bool)
      modifies this
      ensures Value() == Taken(old(Value()), page, generation, tree, max, epoch)
      ensures quote == token && text == Truncate(tree.rendered, max) && (truncated <==> IsCut(tree.rendered, max))
    {
      text, truncated := Truncate(tree.rendered, max), IsCut(tree.rendered, max);
      superseded, supersededToken := refs.Keys, token;
      refs, cutAway := CutRefs(tree, max);
      takenAt, lengthAt, ticksAt, entryAt := page.href, page.length, ticks, page.entry;
      MintToken(epoch);
      quote := token;
    }

    /** `popstate` and `hashchange`. */
    method HearNavigation()
      modifies this`ticks
      ensures Value() == Ticked(old(Value()))
    {
      ticks := ticks + 1;
    }

    method RefsAreCurrent(page: Page, quoted: string) returns (current: bool)
      ensures current <==> AreCurrent(Value(), page, quoted)
    {
      if token == "" || quoted != token { return false; }
      if page.href != takenAt { return false; }
      if page.length != lengthAt { return false; }
      if ticks != ticksAt { return false; }
      if page.entry != entryAt { return false; }
      return true;
    }

    method ElementForRef(page: Page, quoted: string, ref: string) returns (element: Option<nat>)
      ensures element == ElementFor(Value(), page, quoted, ref)
    {
      var current := RefsAreCurrent(page, quoted);
      if !current || ref !in refs || refs[ref] !in page.connected { return None; }
      return Some(refs[ref]);
    }
  }
}
