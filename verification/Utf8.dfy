/**
 UTF-8 as section 4 of RFC 3629 defines it, with the decoding rules of Go's
 unicode/utf8 package: an ill-formed byte decodes to U+FFFD and is one byte wide.
 */
module Utf8 {
  import opened Bytes

  const RUNE_ERROR := 0xFFFD

  /** The test `b & 0xc0 == 0x80`. */
  predicate IsContinuation(b: byte) {
    0x80 <= b < 0xC0
  }

  /** The length a first byte announces; bytes that start nothing stand alone. */
  function Announced(b: byte): (n: nat)
    ensures 1 <= n <= 4
  {
    if b < 0xC2 then 1 else if b < 0xE0 then 2 else if b < 0xF0 then 3 else if b < 0xF5 then 4 else 1
  }

  /** The second bytes that may follow `b`: no overlong form, no surrogate, nothing above U+10FFFF. */
  predicate AcceptsSecond(b: byte, second: byte) {
    IsContinuation(second)
    && (b == 0xE0 ==> 0xA0 <= second)
    && (b == 0xED ==> second < 0xA0)
    && (b == 0xF0 ==> 0x90 <= second)
    && (b == 0xF4 ==> second < 0x90)
  }

  /** Whether more bytes cannot change how the first rune of `p` decodes. */
  predicate FullRune(p: Text) {
    p != []
    && (|p| >= Announced(p[0])
        || (|p| > 1 && !AcceptsSecond(p[0], p[1]))
        || (|p| > 2 && !IsContinuation(p[2])))
  }

  /** The payload of a byte whose marker bits are `marker`. */
  function Bits(b: byte, marker: int): int {
    b as int - marker
  }

  datatype Decoded = Decoded(rune: int, size: nat)

  function DecodeRune(p: Text): (d: Decoded)
    requires p != []
    ensures 1 <= d.size <= |p|
  {
    var n := Announced(p[0]);
    if n == 1 then Decoded(if p[0] < 0x80 then p[0] else RUNE_ERROR, 1)
    else if |p| < n || !AcceptsSecond(p[0], p[1]) then Decoded(RUNE_ERROR, 1)
    else if n == 2 then Decoded(Bits(p[0], 0xC0) * 64 + Bits(p[1], 0x80), 2)
    else if !IsContinuation(p[2]) then Decoded(RUNE_ERROR, 1)
    else if n == 3 then Decoded(Bits(p[0], 0xE0) * 4096 + Bits(p[1], 0x80) * 64 + Bits(p[2], 0x80), 3)
    else if !IsContinuation(p[3]) then Decoded(RUNE_ERROR, 1)
    else Decoded(Bits(p[0], 0xF0) * 262144 + Bits(p[1], 0x80) * 4096 + Bits(p[2], 0x80) * 64 + Bits(p[3], 0x80), 4)
  }

  predicate IsScalar(r: int) {
    0 <= r < 0xD800 || 0xE000 <= r < 0x110000
  }

  function EncodeRune(r: int): (t: Text)
    ensures 1 <= |t| <= 4
  {
    if 0 <= r < 0x80 then [r]
    else if 0 <= r < 0x800 then [0xC0 + r / 64, 0x80 + r % 64]
    else if !IsScalar(r) then [0xEF, 0xBF, 0xBD]
    else if r < 0x10000 then [0xE0 + r / 4096, 0x80 + r / 64 % 64, 0x80 + r % 64]
    else [0xF0 + r / 262144, 0x80 + r / 4096 % 64, 0x80 + r / 64 % 64, 0x80 + r % 64]
  }

  /** Re-encoding a decoded rune gives back its bytes, or U+FFFD in place of one ill-formed byte. */
  lemma EncodeDecoded(p: Text)
    requires p != []
    ensures var d := DecodeRune(p);
            IsScalar(d.rune) && (EncodeRune(d.rune) == p[..d.size] || (d.rune == RUNE_ERROR && d.size == 1))
  {
    var d := DecodeRune(p);
    if d.size == 2 {
      PayloadDigits(0, 0, Bits(p[0], 0xC0), Bits(p[1], 0x80));
    } else if d.size == 3 {
      PayloadDigits(0, Bits(p[0], 0xE0), Bits(p[1], 0x80), Bits(p[2], 0x80));
    } else if d.size == 4 {
      PayloadDigits(Bits(p[0], 0xF0), Bits(p[1], 0x80), Bits(p[2], 0x80), Bits(p[3], 0x80));
    }
  }

  /** The payloads of the bytes are the base-64 digits of the rune. */
  lemma PayloadDigits(a: int, b: int, c: int, d: int)
    requires 0 <= a && 0 <= b < 64 && 0 <= c < 64 && 0 <= d < 64
    ensures var r := a * 262144 + b * 4096 + c * 64 + d;
            r / 262144 == a && r / 4096 % 64 == b && r / 64 % 64 == c && r % 64 == d
            && r / 4096 == a * 64 + b && r / 64 == a * 4096 + b * 64 + c
  {
    var high, low := a * 64 + b, c * 64 + d;
    LastDigit(a * 4096 + b * 64 + c, d);
    LastDigit(high, c);
    LastDigit(a, b);
    LastTwo(high, low);
    LastThree(a, b * 4096 + low);
  }

  lemma LastDigit(x: int, d: int)
    requires 0 <= x && 0 <= d < 64
    ensures (x * 64 + d) / 64 == x && (x * 64 + d) % 64 == d
  {
  }

  lemma LastTwo(x: int, d: int)
    requires 0 <= x && 0 <= d < 4096
    ensures (x * 4096 + d) / 4096 == x
  {
  }

  lemma LastThree(x: int, d: int)
    requires 0 <= x && 0 <= d < 262144
    ensures (x * 262144 + d) / 262144 == x
  {
  }

  /** Every scalar value decodes back from its encoding, whatever follows. */
  lemma DecodeEncoded(r: int, rest: Text)
    requires IsScalar(r)
    ensures DecodeRune(EncodeRune(r) + rest) == Decoded(r, |EncodeRune(r)|)
  {
    var p := EncodeRune(r) + rest;
    RuneDigits(r);
  }

  lemma RuneDigits(r: int)
    requires 0 <= r
    ensures r == r / 64 * 64 + r % 64
    ensures r / 64 == r / 4096 * 64 + r / 64 % 64
    ensures r / 4096 == r / 262144 * 64 + r / 4096 % 64
  {
  }

  /** Once a rune is full, the bytes that arrive later leave it alone. */
  lemma FullRuneStable(p: Text, q: Text)
    requires FullRune(p)
    ensures FullRune(p + q) && DecodeRune(p + q) == DecodeRune(p)
  {
  }

  /** Well-formed UTF-8: the encodings of some scalar values, one after the other. */
  ghost predicate WellFormed(t: Text) {
    exists runes: seq<int> :: (forall r | r in runes :: IsScalar(r)) && t == EncodeAll(runes)
  }

  function EncodeAll(runes: seq<int>): Text {
    if runes == [] then [] else EncodeRune(runes[0]) + EncodeAll(runes[1..])
  }

  /** The runes of `p` when no more bytes will come. */
  function Runes(p: Text): seq<int>
    decreases |p|
  {
    if p == [] then [] else [DecodeRune(p).rune] + Runes(p[DecodeRune(p).size..])
  }

  /** The text `p` decodes to when no more bytes will come. */
  function DecodeAll(p: Text): Text {
    EncodeAll(Runes(p))
  }

  /** How many bytes of `p` a decoder that still expects input can settle. */
  function Settled(p: Text): (n: nat)
    ensures n <= |p|
    ensures !FullRune(p[n..])
    decreases |p|
  {
    if !FullRune(p) then 0
    else
      var size := DecodeRune(p).size;
      assert forall n: nat | n <= |p| - size :: p[size..][n..] == p[size + n..];
      size + Settled(p[size..])
  }

  function SettledRunes(p: Text): seq<int>
    decreases |p|
  {
    if !FullRune(p) then [] else [DecodeRune(p).rune] + SettledRunes(p[DecodeRune(p).size..])
  }

  /** What a decoder has settled stays as it is, and decoding goes on from the bytes it kept. */
  lemma SettledSplit(p: Text, q: Text)
    ensures Runes(p + q) == SettledRunes(p) + Runes(p[Settled(p)..] + q)
    decreases |p|
  {
    hide DecodeRune, FullRune;
    if FullRune(p) {
      FullRuneStable(p, q);
      var size := DecodeRune(p).size;
      SettledSplit(p[size..], q);
      assert (p + q)[size..] == p[size..] + q;
      assert p[size..][Settled(p[size..])..] == p[Settled(p)..];
    } else {
      assert p[0..] == p;
    }
  }

  lemma EncodeAllAppend(a: seq<int>, b: seq<int>)
    ensures EncodeAll(a + b) == EncodeAll(a) + EncodeAll(b)
  {
    if a == [] {
      assert a + b == b;
    } else {
      assert (a + b)[1..] == a[1..] + b;
      EncodeAllAppend(a[1..], b);
    }
  }

  lemma RunesAreScalar(p: Text)
    ensures forall r | r in Runes(p) :: IsScalar(r)
    decreases |p|
  {
    if p != [] {
      EncodeDecoded(p);
      RunesAreScalar(p[DecodeRune(p).size..]);
    }
  }

  lemma RunesOfEncoded(runes: seq<int>)
    requires forall r | r in runes :: IsScalar(r)
    ensures Runes(EncodeAll(runes)) == runes
  {
    if runes != [] {
      var t := EncodeAll(runes);
      DecodeEncoded(runes[0], EncodeAll(runes[1..]));
      assert t[|EncodeRune(runes[0])|..] == EncodeAll(runes[1..]);
      RunesOfEncoded(runes[1..]);
    }
  }

  /** Decoding always yields well-formed text, and changes exactly the text that is not. */
  lemma DecodeAllRepairs(p: Text)
    ensures WellFormed(DecodeAll(p))
    ensures DecodeAll(p) == p <==> WellFormed(p)
  {
    RunesAreScalar(p);
    if WellFormed(p) {
      var runes :| (forall r | r in runes :: IsScalar(r)) && p == EncodeAll(runes);
      RunesOfEncoded(runes);
    }
  }

  /**
   What a cut on a byte position relies on: no character starts with a continuation byte,
   none holds a newline before one, and at most three come in a row.
   */
  ghost predicate Aligned(t: Text) {
    (t != [] ==> !IsContinuation(t[0]))
    && (forall i :: 0 < i < |t| ==> !ContinuesNewline(t, i))
    && (forall i :: 0 <= i < |t| - 3 ==> !FourContinuations(t, i))
  }

  ghost predicate ContinuesNewline(t: Text, i: nat)
    requires 0 < i < |t|
  {
    t[i - 1] == NEWLINE && IsContinuation(t[i])
  }

  ghost predicate FourContinuations(t: Text, i: nat)
    requires i + 3 < |t|
  {
    IsContinuation(t[i]) && IsContinuation(t[i + 1]) && IsContinuation(t[i + 2]) && IsContinuation(t[i + 3])
  }

  lemma AlignedAppend(a: Text, b: Text)
    requires Aligned(a) && Aligned(b)
    ensures Aligned(a + b)
  {
    var t := a + b;
    forall i | 0 < i < |t|
      ensures !ContinuesNewline(t, i)
    {
      if i < |a| {
        assert !ContinuesNewline(a, i);
      } else if i > |a| {
        assert !ContinuesNewline(b, i - |a|);
      }
    }
    forall i | 0 <= i < |t| - 3
      ensures !FourContinuations(t, i)
    {
      if i + 3 < |a| {
        assert !FourContinuations(a, i);
      } else if i >= |a| {
        assert !FourContinuations(b, i - |a|);
      } else {
        assert t[|a|] == b[0];
      }
    }
  }

  lemma EncodedAligned(runes: seq<int>)
    requires forall r | r in runes :: IsScalar(r)
    ensures Aligned(EncodeAll(runes))
  {
    if runes != [] {
      EncodedAligned(runes[1..]);
      AlignedAppend(EncodeRune(runes[0]), EncodeAll(runes[1..]));
    }
  }
}
