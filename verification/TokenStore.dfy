/** The server's credential file: read, edited and republished through a backup and a
    temporary sibling, so that no crash and no failed step loses what was committed. */
module TokenFiles {
  import opened Records
  import opened Decimals

  /** What a file holds: a complete token map, or bytes that do not parse as one
      (empty, truncated or corrupt). */
  datatype Stored = Tokens(tokens: map<string, string>) | Unparsable

  datatype Disk = Disk(live: Option<Stored>, backup: Option<Stored>, temp: Option<Stored>)

  /** Whose secret it is; each kind has a key namespace of its own. */
  datatype Slot = Account(id: string) | Channel(number: int) | Named(name: string)

  function KeyOf(slot: Slot): string {
    match slot
    case Account(id) => "github-token:" + id
    case Channel(n) => "chat-channel:" + Signed(n)
    case Named(name) => "secret:" + name
  }

  datatype Edit = Put(slot: Slot, value: string) | Remove(slot: Slot)

  function Apply(tokens: map<string, string>, e: Edit): map<string, string> {
    match e
    case Put(slot, value) => tokens[KeyOf(slot) := value]
    case Remove(slot) => tokens - {KeyOf(slot)}
  }

  /** How the steps of one operation go; `overwrites`: a rename may overwrite a file. The
      source asks twice whether a file exists, and takes a lookup that fails for a no:
      `seesBackup` and `seesLive` are whether those lookups work. */
  datatype Luck = Luck(
    opens: bool, seesBackup: bool, recovers: bool, reopens: bool, seesLive: bool,
    makesDir: bool, createsTemp: bool, securesTemp: bool, writesTemp: bool, syncsTemp: bool,
    clearsStale: bool, overwrites: bool, backsUp: bool,
    installs: bool, restores: bool, clearsBackup: bool, clearsTemp: bool)

  /** The disk after each step an operation took, and how it ended. */
  datatype Run<T> = Run(steps: seq<Disk>, result: Option<T>)

  function Last(d: Disk, steps: seq<Disk>): Disk {
    if steps == [] then d else steps[|steps| - 1]
  }

  function Parsed(c: Stored): Option<map<string, string>> {
    if c.Tokens? then Some(c.tokens) else None
  }

  /** `read_tokens_at_checked`: a missing live file with a backup is recovered first, and
      opened again. */
  function Read(d: Disk, l: Luck): Run<map<string, string>> {
    if !l.opens then Run([], None)
    else if d.live.Some? then Run([], Parsed(d.live.value))
    else if d.backup.None? || !l.seesBackup then Run([], Some(map[]))
    else if !l.recovers then Run([], None)
    else Run([d.(live := d.backup, backup := None)], if l.reopens then Parsed(d.backup.value) else None)
  }

  /** The live file is gone, its backup holds the store, and the lookup of the backup failed:
      the one way a store is taken for an empty one. */
  predicate IsBlind(d: Disk, l: Luck) {
    l.opens && d.live.None? && d.backup.Some? && !l.seesBackup
  }

  /** Filling the temporary file: truncated first, whole only once everything is written. */
  function WriteTemp(d: Disk, tokens: map<string, string>, l: Luck): Run<()> {
    var truncated := d.(temp := Some(Unparsable));
    if !l.makesDir || !l.createsTemp then Run([], None)
    else if !l.securesTemp || !l.writesTemp then Run([truncated], None)
    else Run([truncated, d.(temp := Some(Tokens(tokens)))], if l.syncsTemp then Some(()) else None)
  }

  /** Moving the live file aside, when there is one. */
  function BackUp(d: Disk, l: Luck): Run<()> {
    if d.live.None? || !l.seesLive then Run([], Some(()))
    else
      var cleared := if l.clearsStale then d.(backup := None) else d;
      if !l.backsUp || (cleared.backup.Some? && !l.overwrites) then Run([cleared], None)
      else Run([cleared, cleared.(live := None, backup := d.live)], Some(()))
  }

  /** Installing the temporary file, or putting the backup back. */
  function Install(d: Disk, hadLive: bool, l: Luck): Run<()> {
    if l.installs then
      var installed := d.(live := d.temp, temp := None);
      Run([installed] + (if hadLive && l.clearsBackup then [installed.(backup := None)] else []), Some(()))
    else
      var restored := if hadLive && l.restores then d.(live := d.backup, backup := None) else d;
      Run([restored, if l.clearsTemp then restored.(temp := None) else restored], None)
  }

  function Publish(d: Disk, l: Luck): Run<()> {
    var moved := BackUp(d, l);
    if moved.result.None? then moved
    else
      var rest := Install(Last(d, moved.steps), d.live.Some? && l.seesLive, l);
      Run(moved.steps + rest.steps, rest.result)
  }

  function Write(d: Disk, tokens: map<string, string>, l: Luck): Run<()> {
    var filled := WriteTemp(d, tokens, l);
    if filled.result.None? then filled
    else
      var rest := Publish(Last(d, filled.steps), l);
      Run(filled.steps + rest.steps, rest.result)
  }

  /** `set_token`, `delete_token` and their channel and secret forms. */
  function Edited(d: Disk, e: Edit, l: Luck): Run<()> {
    var read := Read(d, l);
    if read.result.None? then Run(read.steps, None)
    else
      var rest := Write(Last(d, read.steps), Apply(read.result.value, e), l);
      Run(read.steps + rest.steps, rest.result)
  }

  // ---- What a disk means -------------------------------------------------------

  /** The map a read that succeeds would answer, if the store parses. */
  function Meaning(d: Disk): Option<map<string, string>> {
    if d.live.Some? then Parsed(d.live.value)
    else if d.backup.Some? then Parsed(d.backup.value)
    else Some(map[])
  }

  /** A read never changes what the store means. One that succeeds answers it if and only if
      it was not blind, or there was nothing to be blind to. */
  lemma ReadAnswersMeaning(d: Disk, l: Luck)
    ensures Read(d, l).result.Some? ==>
              (Read(d, l).result == Meaning(d) <==> !IsBlind(d, l) || Meaning(d) == Some(map[]))
    ensures Meaning(Last(d, Read(d, l).steps)) == Meaning(d)
    ensures Read(d, l).result.Some? && !IsBlind(d, l) ==>
              Last(d, Read(d, l).steps).live.Some? || Last(d, Read(d, l).steps).backup.None?
  {}

  /** Every step leaves the old map or the new one readable, the new one once it is in. */
  ghost predicate Survives(d: Disk, steps: seq<Disk>, before: map<string, string>, after: map<string, string>) {
    && (forall i :: 0 <= i < |steps| ==> Meaning(steps[i]) in {Some(before), Some(after)})
    && (forall i, j :: 0 <= i < j < |steps| && Meaning(steps[i]) == Some(after) && before != after ==>
          Meaning(steps[j]) == Some(after))
  }

  lemma BackUpSurvives(d: Disk, l: Luck, before: map<string, string>)
    requires Meaning(d) == Some(before) && (d.live.Some? || d.backup.None?)
    ensures forall s <- BackUp(d, l).steps :: Meaning(s) == Some(before)
    ensures var m, hadLive := Last(d, BackUp(d, l).steps), d.live.Some? && l.seesLive;
            && m.temp == d.temp && Meaning(m) == Some(before)
            && (BackUp(d, l).result.Some? ==> if hadLive then m.live.None? && m.backup.Some? else m == d)
  {}

  lemma InstallSurvives(m: Disk, hadLive: bool, l: Luck, before: map<string, string>, tokens: map<string, string>)
    requires Meaning(m) == Some(before) && m.temp == Some(Tokens(tokens))
    requires if hadLive then m.live.None? && m.backup.Some? else m.live.Some? || m.backup.None?
    ensures var run := Install(m, hadLive, l);
            forall s <- run.steps :: Meaning(s) == Some(if run.result.Some? then tokens else before)
  {}

  lemma PublishSurvives(t: Disk, l: Luck, before: map<string, string>, tokens: map<string, string>)
    requires Meaning(t) == Some(before) && (t.live.Some? || t.backup.None?) && t.temp == Some(Tokens(tokens))
    ensures Survives(t, Publish(t, l).steps, before, tokens)
    ensures Meaning(Last(t, Publish(t, l).steps)) ==
            Some(if Publish(t, l).result.Some? then tokens else before)
  {
    var moved, hadLive := BackUp(t, l), t.live.Some? && l.seesLive;
    BackUpSurvives(t, l, before);
    if moved.result.Some? {
      InstallSurvives(Last(t, moved.steps), hadLive, l, before, tokens);
      SurvivesAppend(t, moved.steps, Install(Last(t, moved.steps), hadLive, l).steps, before, tokens);
    }
  }

  /** Steps that keep the old map, then steps that all mean one of the two. */
  lemma SurvivesAppend(d: Disk, a: seq<Disk>, b: seq<Disk>, before: map<string, string>, after: map<string, string>)
    requires forall s <- a :: Meaning(s) == Some(before)
    requires Survives(d, b, before, after)
    ensures Survives(d, a + b, before, after)
  {}

  lemma WriteSurvives(d: Disk, tokens: map<string, string>, l: Luck, before: map<string, string>)
    requires Meaning(d) == Some(before) && (d.live.Some? || d.backup.None?)
    ensures Survives(d, Write(d, tokens, l).steps, before, tokens)
    ensures Meaning(Last(d, Write(d, tokens, l).steps)) ==
            Some(if Write(d, tokens, l).result.Some? then tokens else before)
  {
    var filled := WriteTemp(d, tokens, l);
    if filled.result.Some? {
      PublishSurvives(Last(d, filled.steps), l, before, tokens);
      SurvivesAppend(d, filled.steps, Publish(Last(d, filled.steps), l).steps, before, tokens);
    }
  }

  /** One operation, cut short by a crash after any of its steps, leaves the committed map
      or the one being written; run to its end it leaves the new map exactly when it
      reported success. */
  lemma UpdateSurvives(d: Disk, e: Edit, l: Luck, before: map<string, string>)
    requires Meaning(d) == Some(before) && !IsBlind(d, l)
    ensures Survives(d, Edited(d, e, l).steps, before, Apply(before, e))
    ensures Meaning(Last(d, Edited(d, e, l).steps)) ==
            Some(if Edited(d, e, l).result.Some? then Apply(before, e) else before)
  {
    ReadAnswersMeaning(d, l);
    var read := Read(d, l);
    if read.result.Some? {
      WriteSurvives(Last(d, read.steps), Apply(before, e), l, before);
    }
  }

  /** Reading blindly, an operation that succeeds publishes its edit of an empty map. */
  lemma BlindUpdateStartsOver(d: Disk, e: Edit, l: Luck)
    requires IsBlind(d, l) && Edited(d, e, l).result.Some?
    ensures Meaning(Last(d, Edited(d, e, l).steps)) == Some(Apply(map[], e))
  {
    var filled := WriteTemp(d, Apply(map[], e), l);
    var t := Last(d, filled.steps);
    assert Read(d, l) == Run([], Some(map[])) && t.live.None?;
    assert Edited(d, e, l).steps == [] + Write(d, Apply(map[], e), l).steps;
    assert Publish(t, l).steps == [] + Install(t, false, l).steps;
    assert Install(t, false, l).steps == [t.(live := t.temp, temp := None)] + [];
  }

  /** What success means, exactly: an operation that reported it has left the edited store if
      and only if it did not read blindly, or the store held nothing beyond the edit. */
  lemma SuccessIsTrueIff(d: Disk, e: Edit, l: Luck, before: map<string, string>)
    requires Meaning(d) == Some(before) && Edited(d, e, l).result.Some?
    ensures Meaning(Last(d, Edited(d, e, l).steps)) == Some(Apply(before, e))
       <==> !IsBlind(d, l) || Apply(map[], e) == Apply(before, e)
  {
    if IsBlind(d, l) { BlindUpdateStartsOver(d, e, l); } else { UpdateSurvives(d, e, l, before); }
  }

  const EVERYTHING_WORKS := Luck(true, true, true, true, true, true, true, true, true, true, true, true, true,
                                 true, true, true, true)

  /** An edit that reported success, and did not read blindly, is what a read answers from then
      on: the secret put, or its absence, and every other slot as it was. */
  lemma EditIsReadBack(d: Disk, e: Edit, l: Luck, before: map<string, string>, other: Slot)
    requires Meaning(d) == Some(before) && !IsBlind(d, l) && Edited(d, e, l).result.Some? && other != e.slot
    ensures var after := Meaning(Last(d, Edited(d, e, l).steps));
            && after.Some?
            && (e.Put? ==> KeyOf(e.slot) in after.value && after.value[KeyOf(e.slot)] == e.value)
            && (e.Remove? ==> KeyOf(e.slot) !in after.value)
            && (KeyOf(other) in after.value <==> KeyOf(other) in before)
            && (KeyOf(other) in before ==> after.value[KeyOf(other)] == before[KeyOf(other)])
  {
    UpdateSurvives(d, e, l, before);
    EditTouchesOneSlot(before, e, other);
  }

  /** When an edit of a store that parses succeeds: exactly when the read gets through, the
      temporary file is filled, the live file (if there is one and it is seen) moves aside, and
      the new file goes in. Nothing else can make it fail. */
  lemma UpdateSucceedsIff(d: Disk, e: Edit, l: Luck)
    requires Meaning(d).Some?
    ensures var recovering := d.live.None? && d.backup.Some? && l.seesBackup;
            var aside := l.seesLive && (d.live.Some? || recovering);
            Edited(d, e, l).result.Some? <==>
              && l.opens && (recovering ==> l.recovers && l.reopens)
              && l.makesDir && l.createsTemp && l.securesTemp && l.writesTemp && l.syncsTemp
              && (aside ==> l.backsUp && (l.clearsStale || l.overwrites || d.backup.None? || recovering))
              && l.installs
  {
    var read := Read(d, l);
    if read.result.Some? {
      var r := Last(d, read.steps);
      var filled := WriteTemp(r, Apply(read.result.value, e), l);
      if filled.result.Some? { PublishSucceedsIff(Last(r, filled.steps), l); }
    }
  }

  lemma PublishSucceedsIff(d: Disk, l: Luck)
    ensures Publish(d, l).result.Some? <==>
              (l.seesLive && d.live.Some? ==> l.backsUp && (l.clearsStale || l.overwrites || d.backup.None?)) && l.installs
  {
  }

  /** And with every step working it leaves the edited map as the live file, with no sibling
      left over; with only the last rename failing, it leaves the map it found, just so. */
  lemma WorkingUpdateTidies(d: Disk, e: Edit, before: map<string, string>, installs: bool)
    requires Meaning(d) == Some(before) && (d.live.Some? || d.backup.Some?)
    ensures var l := EVERYTHING_WORKS.(installs := installs);
            var run := Edited(d, e, l);
            && (run.result.Some? <==> installs)
            && Last(d, run.steps) == Disk(Some(Tokens(if installs then Apply(before, e) else before)), None, None)
  {
    var l := EVERYTHING_WORKS.(installs := installs);
    var r := Last(d, Read(d, l).steps);
    var filled := WriteTemp(r, Apply(before, e), l);
    PublishTidies(Last(r, filled.steps), l, before, Apply(before, e));
    assert Last(d, Read(d, l).steps + (filled.steps + Publish(Last(r, filled.steps), l).steps))
           == Last(Last(r, filled.steps), Publish(Last(r, filled.steps), l).steps);
  }

  lemma PublishTidies(t: Disk, l: Luck, before: map<string, string>, tokens: map<string, string>)
    requires l == EVERYTHING_WORKS.(installs := l.installs)
    requires t.live == Some(Tokens(before)) && t.temp == Some(Tokens(tokens))
    ensures Publish(t, l).result.Some? <==> l.installs
    ensures Publish(t, l).steps != []
    ensures Last(t, Publish(t, l).steps) == Disk(Some(Tokens(if l.installs then tokens else before)), None, None)
  {
  }

  /** And so it happens: after a crash between moving the store aside and installing the new
      one, a lookup that fails once loses every other secret. */
  lemma BlindWriteLosesStore(tokens: map<string, string>, slot: Slot, value: string, other: string)
    requires other in tokens && other != KeyOf(slot)
    ensures var d, l := Disk(None, Some(Tokens(tokens)), None), EVERYTHING_WORKS.(seesBackup := false);
            var run := Edited(d, Put(slot, value), l);
            && Meaning(d) == Some(tokens) && run.result.Some?
            && Meaning(Last(d, run.steps)) == Some(map[KeyOf(slot) := value])
            && other !in Meaning(Last(d, run.steps)).value
  {
    var d, l := Disk(None, Some(Tokens(tokens)), None), EVERYTHING_WORKS.(seesBackup := false);
    BlindUpdateStartsOver(d, Put(slot, value), l);
  }

  /** A store that does not parse is reported, and its bytes are never overwritten: at most
      the backup is moved into the missing live file's place. That, too, takes a read that is
      not blind. */
  lemma UnparsableIsKept(d: Disk, e: Edit, l: Luck)
    requires Meaning(d).None?
    ensures !IsBlind(d, l) ==> Edited(d, e, l).result.None?
    ensures !IsBlind(d, l) ==>
              forall s <- Edited(d, e, l).steps ::
                s == d || (d.live.None? && s == d.(live := d.backup, backup := None))
    ensures IsBlind(d, l) && Edited(d, e, l).result.Some? ==>
              Meaning(Last(d, Edited(d, e, l).steps)) == Some(Apply(map[], e))
  {
    if IsBlind(d, l) && Edited(d, e, l).result.Some? { BlindUpdateStartsOver(d, e, l); }
  }

  // ---- Whole lifetimes ---------------------------------------------------------

  /** One operation as it went: run to its end, or cut off by a crash after `crash` steps. */
  datatype Attempt = Attempt(edit: Edit, luck: Luck, crash: Option<nat>)

  function Crashed(d: Disk, a: Attempt): bool {
    a.crash.Some? && a.crash.value < |Edited(d, a.edit, a.luck).steps|
  }

  function DiskAfter(d: Disk, a: Attempt): Disk {
    var steps := Edited(d, a.edit, a.luck).steps;
    if Crashed(d, a) then Last(d, steps[..a.crash.value]) else Last(d, steps)
  }

  function DiskAfterAll(d: Disk, attempts: seq<Attempt>): Disk
    decreases |attempts|
  {
    if attempts == [] then d else DiskAfterAll(DiskAfter(d, attempts[0]), attempts[1..])
  }

  /** No attempt of the run reads blindly. */
  predicate Sighted(d: Disk, attempts: seq<Attempt>)
    decreases |attempts|
  {
    attempts != [] ==> !IsBlind(d, attempts[0].luck) && Sighted(DiskAfter(d, attempts[0]), attempts[1..])
  }

  /** The atomic store this refines: an edit that reported success took effect, one that
      reported failure did not, and one cut off by a crash did both or neither. */
  ghost predicate Atomically(d: Disk, attempts: seq<Attempt>, tokens: map<string, string>, final: map<string, string>)
    decreases |attempts|
  {
    if attempts == [] then final == tokens
    else
      var a, rest := attempts[0], attempts[1..];
      var next, edited := DiskAfter(d, a), Apply(tokens, a.edit);
      if Crashed(d, a) then Atomically(next, rest, tokens, final) || Atomically(next, rest, edited, final)
      else if Edited(d, a.edit, a.luck).result.Some? then Atomically(next, rest, edited, final)
      else Atomically(next, rest, tokens, final)
  }

  lemma AttemptSurvives(d: Disk, a: Attempt, tokens: map<string, string>)
    requires Meaning(d) == Some(tokens) && !IsBlind(d, a.luck)
    ensures var next, edited := DiskAfter(d, a), Apply(tokens, a.edit);
            if Crashed(d, a) then Meaning(next) in {Some(tokens), Some(edited)}
            else Meaning(next) == Some(if Edited(d, a.edit, a.luck).result.Some? then edited else tokens)
  {
    var steps := Edited(d, a.edit, a.luck).steps;
    UpdateSurvives(d, a.edit, a.luck, tokens);
    if Crashed(d, a) && a.crash.value > 0 {
      assert Last(d, steps[..a.crash.value]) == steps[a.crash.value - 1];
    }
  }

  /** The store refines an atomic map under crashes: after any operations, any of them
      failing at any step or cut off by a crash after any step (including a crash while
      recovering from an earlier one) but none reading blindly, the store reads as a map some atomic execution of
      the same operations holds: never empty, never older. */
  lemma {:induction false} CrashesAreAtomic(d: Disk, attempts: seq<Attempt>, tokens: map<string, string>)
    requires Meaning(d) == Some(tokens) && Sighted(d, attempts)
    ensures Meaning(DiskAfterAll(d, attempts)).Some?
    ensures Atomically(d, attempts, tokens, Meaning(DiskAfterAll(d, attempts)).value)
    decreases |attempts|
  {
    if attempts != [] {
      AttemptSurvives(d, attempts[0], tokens);
      CrashesAreAtomic(DiskAfter(d, attempts[0]), attempts[1..], Meaning(DiskAfter(d, attempts[0])).value);
    }
  }

  /** The three namespaces never collide, and no two slots of one kind share a key. */
  lemma KeysAreDistinct(a: Slot, b: Slot)
    requires KeyOf(a) == KeyOf(b)
    ensures a == b
  {
    var k := KeyOf(a);
    assert k[0] == KeyOf(b)[0];
    match a {
      case Account(id) => assert k[13..] == id && (b.Account? ==> KeyOf(b)[13..] == b.id);
      case Named(name) => assert k[7..] == name && (b.Named? ==> KeyOf(b)[7..] == b.name);
      case Channel(n) =>
        assert k[13..] == Signed(n) && (b.Channel? ==> KeyOf(b)[13..] == Signed(b.number));
        if b.Channel? { SignedInjective(n, b.number); }
    }
  }

  /** Editing one slot leaves every other slot's secret alone. */
  lemma EditTouchesOneSlot(tokens: map<string, string>, e: Edit, other: Slot)
    requires other != e.slot
    ensures KeyOf(other) in Apply(tokens, e) <==> KeyOf(other) in tokens
    ensures KeyOf(other) in tokens ==> Apply(tokens, e)[KeyOf(other)] == tokens[KeyOf(other)]
  {
    if KeyOf(other) == KeyOf(e.slot) { KeysAreDistinct(other, e.slot); }
  }
}

/** The store as the source runs it: steps that edit the files in place. `history` is the
    disk after each step, so a crash is any prefix of it. */
module TokenStores {
  import opened Records
  import opened TokenFiles

  /** A run from `before` took these steps and ended at `now`, its history growing by them. */
  ghost predicate Took(past: seq<Disk>, before: Disk, steps: seq<Disk>, history: seq<Disk>, now: Disk) {
    history == past + steps && now == Last(before, steps)
  }

  lemma TookBoth(past: seq<Disk>, before: Disk, a: seq<Disk>, b: seq<Disk>, history: seq<Disk>, now: Disk)
    requires Took(past + a, Last(before, a), b, history, now)
    ensures Took(past, before, a + b, history, now)
  {
    assert (past + a) + b == past + (a + b);
  }

  datatype CredentialState = Present(secret: string) | Absent | Unavailable

  class TokenStore {
    var live: Option<Stored>
    var backup: Option<Stored>
    var temp: Option<Stored>
    ghost var history: seq<Disk>

    ghost function Now(): Disk
      reads this
    {
      Disk(live, backup, temp)
    }

    constructor (l: Option<Stored>, b: Option<Stored>, t: Option<Stored>)
      ensures Now() == Disk(l, b, t) && history == []
    {
      live, backup, temp, history := l, b, t, [];
    }

    method ReadTokens(luck: Luck) returns (tokens: Option<map<string, string>>)
      modifies this
      ensures tokens == Read(old(Now()), luck).result
      ensures Took(old(history), old(Now()), Read(old(Now()), luck).steps, history, Now())
    {
      if !luck.opens { return None; }
      if live.None? {
        if backup.None? || !luck.seesBackup { return Some(map[]); }
        if !luck.recovers { return None; }
        live, backup := backup, None;
        history := history + [Now()];
        if !luck.reopens { return None; }
      }
      return match live.value case Tokens(m) => Some(m) case Unparsable => None;
    }

    method FillTemp(tokens: map<string, string>, luck: Luck) returns (ok: bool)
      modifies this
      ensures ok == WriteTemp(old(Now()), tokens, luck).result.Some?
      ensures Took(old(history), old(Now()), WriteTemp(old(Now()), tokens, luck).steps, history, Now())
    {
      if !luck.makesDir || !luck.createsTemp { return false; }
      temp := Some(Unparsable);
      history := history + [Now()];
      if !luck.securesTemp || !luck.writesTemp { return false; }
      temp := Some(Tokens(tokens));
      history := history + [Now()];
      return luck.syncsTemp;
    }

    method MoveAside(hadLive: bool, luck: Luck) returns (ok: bool)
      requires hadLive == (live.Some? && luck.seesLive)
      modifies this
      ensures ok == BackUp(old(Now()), luck).result.Some?
      ensures Took(old(history), old(Now()), BackUp(old(Now()), luck).steps, history, Now())
    {
      if !hadLive { return true; }
      if luck.clearsStale { backup := None; }
      history := history + [Now()];
      if !luck.backsUp || (backup.Some? && !luck.overwrites) { return false; }
      live, backup := None, live;
      history := history + [Now()];
      return true;
    }

    method InstallTemp(hadLive: bool, luck: Luck) returns (ok: bool)
      modifies this
      ensures ok == Install(old(Now()), hadLive, luck).result.Some?
      ensures Took(old(history), old(Now()), Install(old(Now()), hadLive, luck).steps, history, Now())
    {
      if luck.installs {
        live, temp := temp, None;
        history := history + [Now()];
        if hadLive && luck.clearsBackup {
          backup := None;
          history := history + [Now()];
        }
        return true;
      }
      if hadLive && luck.restores { live, backup := backup, None; }
      history := history + [Now()];
      if luck.clearsTemp { temp := None; }
      history := history + [Now()];
      return false;
    }

    /** `publish_tokens_file_with`: live aside, temporary file in, or everything back. */
    method PublishTemp(luck: Luck) returns (ok: bool)
      modifies this
      ensures ok == Publish(old(Now()), luck).result.Some?
      ensures Took(old(history), old(Now()), Publish(old(Now()), luck).steps, history, Now())
    {
      ghost var before, past := Now(), history;
      var hadLive := live.Some? && luck.seesLive;
      var moved := MoveAside(hadLive, luck);
      if !moved { return false; }
      ghost var between := Now();
      ok := InstallTemp(hadLive, luck);
      TookBoth(past, before, BackUp(before, luck).steps, Install(between, hadLive, luck).steps, history, Now());
    }

    /** `write_tokens_map`. */
    method WriteTokens(tokens: map<string, string>, luck: Luck) returns (ok: bool)
      modifies this
      ensures ok == Write(old(Now()), tokens, luck).result.Some?
      ensures Took(old(history), old(Now()), Write(old(Now()), tokens, luck).steps, history, Now())
    {
      ghost var before, past := Now(), history;
      var filled := FillTemp(tokens, luck);
      if !filled { return false; }
      ghost var between := Now();
      ok := PublishTemp(luck);
      TookBoth(past, before, WriteTemp(before, tokens, luck).steps, Publish(between, luck).steps, history, Now());
    }

    /** `set_token`, `set_channel_token`, `set_secret` and the deletes: the store is read
        first, and one that cannot be read is never written. */
    method UpdateSlot(e: Edit, luck: Luck) returns (ok: bool)
      modifies this
      ensures ok == Edited(old(Now()), e, luck).result.Some?
      ensures Took(old(history), old(Now()), Edited(old(Now()), e, luck).steps, history, Now())
    {
      ghost var before, past := Now(), history;
      var tokens := ReadTokens(luck);
      if tokens.None? { return false; }
      ghost var between := Now();
      ok := WriteTokens(Apply(tokens.value, e), luck);
      TookBoth(past, before, Read(before, luck).steps, Write(between, Apply(tokens.value, e), luck).steps, history, Now());
    }

    /** A lookup tells a missing secret from an unreadable store, unless it reads blindly. */
    method Lookup(slot: Slot, luck: Luck) returns (state: CredentialState)
      modifies this
      ensures var meant, read := old(Meaning(Now())), Read(old(Now()), luck).result;
              state == if read.None? then Unavailable
                       else if IsBlind(old(Now()), luck) then Absent
                       else if KeyOf(slot) in meant.value then Present(meant.value[KeyOf(slot)])
                       else Absent
      ensures Meaning(Now()) == old(Meaning(Now()))
    {
      ReadAnswersMeaning(Now(), luck);
      var tokens := ReadTokens(luck);
      match tokens {
        case None => state := Unavailable;
        case Some(m) => state := if KeyOf(slot) in m then Present(m[KeyOf(slot)]) else Absent;
      }
    }
  }
}
