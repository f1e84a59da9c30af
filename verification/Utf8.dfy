/** Lossy UTF-8, as `String::from_utf8_lossy` decodes it: well-formedness per section 4 of
    RFC 3629, one U+FFFD for each maximal ill-formed part. */
module Utf8 {

  type byte = b: int | 0 <= b < 256

  const NEWLINE: byte := 10
  const REPLACEMENT: char := 0xFFFD as char

  /** One decoded character and how many bytes it took. */
  datatype Piece = Piece(c: char, width: nat)

  /** Past the end reads as 0, which continues nothing. */
  function ByteAt(bytes: seq<byte>, i: nat): byte {
    if i < |bytes| then bytes[i] else 0
  }

  predicate Continues(b: byte) { 0x80 <= b <= 0xBF }

  predicate SecondOfThree(lead: byte, b: byte) {
    || (lead == 0xE0 && 0xA0 <= b <= 0xBF)
    || ((0xE1 <= lead <= 0xEC || 0xEE <= lead <= 0xEF) && Continues(b))
    || (lead == 0xED && 0x80 <= b <= 0x9F)
  }

  predicate SecondOfFour(lead: byte, b: byte) {
    || (lead == 0xF0 && 0x90 <= b <= 0xBF)
    || (0xF1 <= lead <= 0xF3 && Continues(b))
    || (lead == 0xF4 && 0x80 <= b <= 0x8F)
  }

  function First(bytes: seq<byte>): (p: Piece)
    requires bytes != []
    ensures 1 <= p.width <= |bytes|
    ensures p.c == '\n' <==> bytes[0] == NEWLINE
  {
    var b0, b1, b2, b3 := bytes[0], ByteAt(bytes, 1), ByteAt(bytes, 2), ByteAt(bytes, 3);
    if b0 < 0x80 then Piece(b0 as char, 1)
    else if 0xC2 <= b0 <= 0xDF then
      if !Continues(b1) then Piece(REPLACEMENT, 1)
      else Piece(((b0 - 0xC0) * 64 + (b1 - 0x80)) as char, 2)
    else if 0xE0 <= b0 <= 0xEF then
      if !SecondOfThree(b0, b1) then Piece(REPLACEMENT, 1)
      else if !Continues(b2) then Piece(REPLACEMENT, 2)
      else Piece(((b0 - 0xE0) * 4096 + (b1 - 0x80) * 64 + (b2 - 0x80)) as char, 3)
    else if 0xF0 <= b0 <= 0xF4 then
      if !SecondOfFour(b0, b1) then Piece(REPLACEMENT, 1)
      else if !Continues(b2) then Piece(REPLACEMENT, 2)
      else if !Continues(b3) then Piece(REPLACEMENT, 3)
      else Piece(((b0 - 0xF0) * 262144 + (b1 - 0x80) * 4096 + (b2 - 0x80) * 64 + (b3 - 0x80)) as char, 4)
    else Piece(REPLACEMENT, 1)
  }

  function Decode(bytes: seq<byte>): (text: string)
    decreases |bytes|
  {
    if bytes == [] then [] else [First(bytes).c] + Decode(bytes[First(bytes).width..])
  }

  lemma FirstStopsAtNewline(a: seq<byte>, b: seq<byte>)
    requires a != []
    ensures First(a + [NEWLINE] + b) == First(a)
  {
    var all := a + [NEWLINE] + b;
    assert forall i: nat :: i < |a| ==> ByteAt(all, i) == ByteAt(a, i);
    assert ByteAt(all, |a|) == NEWLINE && ByteAt(a, |a|) == 0;
  }

  /** Lossy decoding commutes with cutting at a newline byte, whatever the bytes. */
  lemma {:induction false} DecodeAtNewline(a: seq<byte>, b: seq<byte>)
    ensures Decode(a + [NEWLINE] + b) == Decode(a) + ['\n'] + Decode(b)
    decreases |a|
  {
    var all := a + [NEWLINE] + b;
    if a == [] {
      assert all[0] == NEWLINE && all[1..] == b && First(all) == Piece('\n', 1);
      assert Decode(a) == [];
    } else {
      FirstStopsAtNewline(a, b);
      var w := First(a).width;
      DecodeAtNewline(a[w..], b);
      assert all[w..] == a[w..] + [NEWLINE] + b;
    }
  }

  /** A newline character only ever comes from a newline byte. */
  lemma {:induction false} NoNewlineDecoded(bytes: seq<byte>)
    requires NEWLINE !in bytes
    ensures '\n' !in Decode(bytes)
    decreases |bytes|
  {
    if bytes != [] { NoNewlineDecoded(bytes[First(bytes).width..]); }
  }

  // ---- Decoding inverts encoding ---------------------------------------------

  function Encode(c: char): (bytes: seq<byte>)
    ensures 1 <= |bytes| <= 4
  {
    var n := c as int;
    if n < 0x80 then [n]
    else if n < 0x800 then [0xC0 + n / 64, 0x80 + n % 64]
    else if n < 0x10000 then [0xE0 + n / 4096, 0x80 + n / 64 % 64, 0x80 + n % 64]
    else [0xF0 + n / 262144, 0x80 + n / 4096 % 64, 0x80 + n / 64 % 64, 0x80 + n % 64]
  }

  function EncodeAll(text: string): (bytes: seq<byte>)
  {
    if text == [] then [] else Encode(text[0]) + EncodeAll(text[1..])
  }

  lemma FirstOfEncoded(c: char, rest: seq<byte>)
    ensures First(Encode(c) + rest) == Piece(c, |Encode(c)|)
  {
    var n, bytes := c as int, Encode(c) + rest;
    assert forall i: nat :: i < |Encode(c)| ==> ByteAt(bytes, i) == Encode(c)[i];
    if n >= 0x10000 {
      FourDigits(n);
    } else if n >= 0x800 {
      ThreeDigits(n);
    }
  }

  lemma ThreeDigits(n: nat)
    ensures n == n / 4096 * 4096 + n / 64 % 64 * 64 + n % 64
  {
    assert n / 4096 == n / 64 / 64;
  }

  lemma FourDigits(n: nat)
    ensures n == n / 262144 * 262144 + n / 4096 % 64 * 4096 + n / 64 % 64 * 64 + n % 64
  {
    assert n / 262144 == n / 4096 / 64 && n / 4096 == n / 64 / 64;
  }

  /** What was written as UTF-8 decodes to itself: lossy decoding loses nothing sound. */
  lemma {:induction false} DecodeEncoded(text: string)
    ensures Decode(EncodeAll(text)) == text
  {
    if text != [] {
      var head, rest := Encode(text[0]), EncodeAll(text[1..]);
      FirstOfEncoded(text[0], rest);
      assert (head + rest)[|head|..] == rest;
      DecodeEncoded(text[1..]);
    }
  }

  // ---- What is not sound ------------------------------------------------------------

  /** Some character's encoding begins so. */
  ghost predicate Opens(part: seq<byte>) {
    exists c: char :: part <= Encode(c)
  }

  lemma EncodedThree(n: nat)
    requires 0x800 <= n < 0x10000 && !(0xD800 <= n <= 0xDFFF)
    ensures 0xE0 <= 0xE0 + n / 4096 <= 0xEF && SecondOfThree(0xE0 + n / 4096, 0x80 + n / 64 % 64)
  {
    ThreeDigits(n);
  }

  lemma EncodedFour(n: nat)
    requires 0x10000 <= n < 0x110000
    ensures 0xF0 <= 0xF0 + n / 262144 <= 0xF4 && SecondOfFour(0xF0 + n / 262144, 0x80 + n / 4096 % 64)
  {
    FourDigits(n);
  }

  /** The byte ranges of an encoding. */
  lemma EncodingShape(c: char)
    ensures var e := Encode(c);
            || (|e| == 1 && e[0] < 0x80)
            || (|e| == 2 && 0xC2 <= e[0] <= 0xDF && Continues(e[1]))
            || (|e| == 3 && 0xE0 <= e[0] <= 0xEF && SecondOfThree(e[0], e[1]) && Continues(e[2]))
            || (|e| == 4 && 0xF0 <= e[0] <= 0xF4 && SecondOfFour(e[0], e[1]) && Continues(e[2]) && Continues(e[3]))
  {
    var n := c as int;
    if n >= 0x10000 { EncodedFour(n); } else if n >= 0x800 { EncodedThree(n); }
  }

  lemma ThreeParts(a: nat, b: nat, c: nat)
    requires b < 64 && c < 64
    ensures var n := a * 4096 + b * 64 + c; n / 4096 == a && n / 64 % 64 == b && n % 64 == c
  {
    assert (a * 4096 + b * 64 + c) / 64 == a * 64 + b;
  }

  lemma ThreeBytes(b0: byte, b1: byte, b2: byte)
    requires 0xE0 <= b0 <= 0xEF && SecondOfThree(b0, b1) && Continues(b2)
    ensures Encode(((b0 - 0xE0) * 4096 + (b1 - 0x80) * 64 + (b2 - 0x80)) as char) == [b0, b1, b2]
  {
    ThreeParts(b0 - 0xE0, b1 - 0x80, b2 - 0x80);
  }

  lemma FourParts(a: nat, b: nat, c: nat, d: nat)
    requires b < 64 && c < 64 && d < 64
    ensures var n := a * 262144 + b * 4096 + c * 64 + d;
            n / 262144 == a && n / 4096 % 64 == b && n / 64 % 64 == c && n % 64 == d
  {
    var n := a * 262144 + b * 4096 + c * 64 + d;
    assert n / 64 == a * 4096 + b * 64 + c;
    assert n / 4096 == a * 64 + b;
  }

  lemma FourBytes(b0: byte, b1: byte, b2: byte, b3: byte)
    requires 0xF0 <= b0 <= 0xF4 && SecondOfFour(b0, b1) && Continues(b2) && Continues(b3)
    ensures Encode(((b0 - 0xF0) * 262144 + (b1 - 0x80) * 4096 + (b2 - 0x80) * 64 + (b3 - 0x80)) as char)
            == [b0, b1, b2, b3]
  {
    FourParts(b0 - 0xF0, b1 - 0x80, b2 - 0x80, b3 - 0x80);
  }

  /** A part that is too short for its lead byte, in range so far, opens an encoding. */
  lemma PartOpens(bytes: seq<byte>, w: nat)
    requires 1 < w <= |bytes|
    requires || (w == 2 && 0xE0 <= bytes[0] <= 0xEF && SecondOfThree(bytes[0], bytes[1]))
             || (2 <= w <= 3 && 0xF0 <= bytes[0] <= 0xF4 && SecondOfFour(bytes[0], bytes[1])
                 && (w == 3 ==> Continues(bytes[2])))
    ensures Opens(bytes[..w])
  {
    var b0, b1 := bytes[0], bytes[1];
    if b0 <= 0xEF {
      ThreeBytes(b0, b1, 0x80);
      assert bytes[..w] <= [b0, b1, 0x80];
    } else {
      var b2: byte := if w == 3 then bytes[2] else 0x80;
      FourBytes(b0, b1, b2, 0x80);
      assert bytes[..w] <= [b0, b1, b2, 0x80];
    }
  }

  /** Nothing encoded begins with the part and the byte that broke it off. */
  lemma BreaksOff(bytes: seq<byte>, c: char)
    requires bytes != [] && First(bytes).c == REPLACEMENT && !(Encode(First(bytes).c) <= bytes)
    requires First(bytes).width < |bytes|
    ensures !(bytes[..First(bytes).width + 1] <= Encode(c))
  {
    EncodingShape(c);
    var w, e := First(bytes).width, Encode(c);
  }

  lemma TwoBytes(b0: byte, b1: byte)
    requires 0xC2 <= b0 <= 0xDF && Continues(b1)
    ensures Encode(((b0 - 0xC0) * 64 + (b1 - 0x80)) as char) == [b0, b1]
  {
  }

  /** The bytes begin with a sequence in range throughout. */
  predicate InRange(bytes: seq<byte>)
    requires bytes != []
  {
    var b0, b1, b2, b3 := bytes[0], ByteAt(bytes, 1), ByteAt(bytes, 2), ByteAt(bytes, 3);
    || b0 < 0x80
    || (0xC2 <= b0 <= 0xDF && Continues(b1))
    || (0xE0 <= b0 <= 0xEF && SecondOfThree(b0, b1) && Continues(b2))
    || (0xF0 <= b0 <= 0xF4 && SecondOfFour(b0, b1) && Continues(b2) && Continues(b3))
  }

  lemma InRangeIsEncoded(bytes: seq<byte>)
    requires bytes != [] && InRange(bytes)
    ensures Encode(First(bytes).c) <= bytes && First(bytes).width == |Encode(First(bytes).c)|
  {
    var b0, b1, b2, b3 := bytes[0], ByteAt(bytes, 1), ByteAt(bytes, 2), ByteAt(bytes, 3);
    if b0 < 0x80 {
      assert Encode(b0 as char) == [b0];
    } else if b0 <= 0xDF {
      TwoBytes(b0, b1);
    } else if b0 <= 0xEF {
      ThreeBytes(b0, b1, b2);
    } else {
      FourBytes(b0, b1, b2, b3);
    }
  }

  /** What each decoded character stands for, exactly: the encoding it was read from; or, where no
      encoding begins, one U+FFFD for the longest part that still opened one, or for the one
      byte that opened none. */
  lemma FirstMeans(bytes: seq<byte>)
    requires bytes != []
    ensures var p := First(bytes);
            || (p.width == |Encode(p.c)| && Encode(p.c) <= bytes)
            || (&& p.c == REPLACEMENT && (forall c :: !(Encode(c) <= bytes))
                && (p.width > 1 ==> Opens(bytes[..p.width]))
                && (p.width < |bytes| ==> !Opens(bytes[..p.width + 1])))
  {
    var p := First(bytes);
    if InRange(bytes) {
      InRangeIsEncoded(bytes);
    } else {
      assert p.c == REPLACEMENT;
      forall c ensures !(Encode(c) <= bytes) { OutOfRange(bytes, c); }
      if p.width > 1 { PartOpens(bytes, p.width); }
      if p.width < |bytes| && Opens(bytes[..p.width + 1]) {
        var c: char :| bytes[..p.width + 1] <= Encode(c);
        BreaksOff(bytes, c);
      }
    }
  }

  lemma OutOfRange(bytes: seq<byte>, c: char)
    requires bytes != [] && !InRange(bytes)
    ensures !(Encode(c) <= bytes)
  {
    EncodingShape(c);
  }
}
