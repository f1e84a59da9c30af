/** Whitespace trimming, as `str::trim` does it over Unicode scalar values. */
module Whitespace {

  predicate IsSpace(c: char) {
    var n := c as int;
    || 9 <= n <= 13 || n == 0x20 || n == 0x85 || n == 0xA0 || n == 0x1680
    || 0x2000 <= n <= 0x200A || n == 0x2028 || n == 0x2029 || n == 0x202F || n == 0x205F || n == 0x3000
  }

  function TrimStart(s: string): (r: string)
    ensures r == [] || !IsSpace(r[0])
  {
    if s != [] && IsSpace(s[0]) then TrimStart(s[1..]) else s
  }

  function TrimEnd(s: string): (r: string)
    ensures r == [] || !IsSpace(r[|r| - 1])
    ensures r <= s
  {
    if s != [] && IsSpace(s[|s| - 1]) then TrimEnd(s[..|s| - 1]) else s
  }

  function Trim(s: string): (r: string)
  {
    TrimEnd(TrimStart(s))
  }

  predicate AllSpace(s: string) {
    forall i :: 0 <= i < |s| ==> IsSpace(s[i])
  }

  lemma {:induction false} TrimStartCuts(s: string)
    ensures var n := |s| - |TrimStart(s)|;
            0 <= n && TrimStart(s) == s[n..] && AllSpace(s[..n])
  {
    if s != [] && IsSpace(s[0]) {
      TrimStartCuts(s[1..]);
      var n := |s| - |TrimStart(s)|;
      assert s[1..][n - 1..] == s[n..] && s[..n] == [s[0]] + s[1..][..n - 1];
    }
  }

  lemma {:induction false} TrimEndCuts(s: string)
    ensures TrimEnd(s) == s[..|TrimEnd(s)|] && AllSpace(s[|TrimEnd(s)|..])
  {
    if s != [] && IsSpace(s[|s| - 1]) {
      var init := s[..|s| - 1];
      TrimEndCuts(init);
      assert s[|TrimEnd(s)|..] == init[|TrimEnd(s)|..] + [s[|s| - 1]];
    }
  }

  /** Trimming cuts the whitespace at both ends, all of it, and nothing else. */
  lemma TrimCutsEnds(s: string) returns (from: nat, upTo: nat)
    ensures from <= upTo <= |s| && Trim(s) == s[from..upTo]
    ensures AllSpace(s[..from]) && AllSpace(s[upTo..])
    ensures from < upTo ==> !IsSpace(s[from]) && !IsSpace(s[upTo - 1])
  {
    var t := TrimStart(s);
    TrimStartCuts(s);
    TrimEndCuts(t);
    from := |s| - |t|;
    upTo := from + |TrimEnd(t)|;
    assert t[|TrimEnd(t)|..] == s[upTo..];
  }

  lemma TrimIdempotent(s: string)
    ensures Trim(Trim(s)) == Trim(s)
  {
    var once := Trim(s);
    if once != [] {
      assert once[0] == TrimStart(s)[0];
    }
    assert TrimStart(once) == once;
  }

  lemma {:induction false} TrimStartAppend(s: string, c: char)
    requires IsSpace(c)
    ensures TrimStart(s + [c]) == if TrimStart(s) == [] then [] else TrimStart(s) + [c]
  {
    if s == [] {
      assert s + [c] == [c] && TrimStart([c]) == TrimStart([]);
    } else if IsSpace(s[0]) {
      TrimStartAppend(s[1..], c);
      assert (s + [c])[1..] == s[1..] + [c];
    }
  }

  /** Trailing whitespace does not change what a line trims to. */
  lemma TrimAppend(s: string, c: char)
    requires IsSpace(c)
    ensures Trim(s + [c]) == Trim(s)
  {
    TrimStartAppend(s, c);
    var t := TrimStart(s);
    assert (t + [c])[..|t|] == t;
  }
}
