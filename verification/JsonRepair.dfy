/** Repairing the string literals of almost-JSON text: control bytes and stray backslashes are escaped. The target is
    the string grammar of section 7 of RFC 8259, except that "\u" need not be followed by four hexadecimal digits. */
module JsonRepair {
  import opened Bytes

  const QUOTE: byte := 34
  const BACKSLASH: byte := 92
  const LETTER_U: byte := 117
  const ZERO: byte := 48

  predicate IsControl(b: byte) {
    b <= 0x1f
  }

  predicate IsValidEscape(b: byte) {
    b == QUOTE || b == BACKSLASH || b == 47 || b == 98 || b == 102 || b == 110 || b == 114 || b == 116 || b == LETTER_U
  }

  predicate IsHex(b: byte) {
    48 <= b <= 57 || 97 <= b <= 102 || 65 <= b <= 70
  }

  function HexValue(b: byte): nat
    requires IsHex(b)
  {
    if b <= 57 then b - 48 else if b >= 97 then b - 87 else b - 55
  }

  /** How many of the `n` bytes from `i` on are hexadecimal digits, up to the first that is not. */
  function HexRun(s: Text, i: nat, n: nat): (k: nat)
    requires i <= |s|
    ensures k <= n && i + k <= |s| && forall j :: i <= j < i + k ==> IsHex(s[j])
    decreases n
  {
    if n == 0 || i == |s| || !IsHex(s[i]) then 0 else 1 + HexRun(s, i + 1, n - 1)
  }

  function HexDigit(n: nat): byte
    requires n < 16
  {
    if n < 10 then 48 + n else 87 + n
  }

  /** The escape of a control byte: a letter for five of them, a numeric escape for the others. */
  function EscapeControl(b: byte): Text
    requires IsControl(b)
  {
    if b == 8 then [BACKSLASH, 98]
    else if b == 12 then [BACKSLASH, 102]
    else if b == 10 then [BACKSLASH, 110]
    else if b == 13 then [BACKSLASH, 114]
    else if b == 9 then [BACKSLASH, 116]
    else [BACKSLASH, LETTER_U, ZERO, ZERO, HexDigit(b / 16), HexDigit(b % 16)]
  }

  // ----- What a text says, read leniently -----

  /** Outside strings, bytes; inside, characters. A control byte in a string stands for itself, and so does a backslash
      that begins no escape. */
  datatype Symbol =
    | Outside(b: byte)
    | Opens
    | Closes
    | Character(code: nat)
    | RawByte(b: byte)
    | BrokenUnicode

  /** A token: how many bytes it takes, what it says, and whether a string is open after it. */
  datatype Token = Token(size: nat, symbol: Symbol, inString: bool)

  function EscapeCode(b: byte): nat {
    if b == 98 then 8 else if b == 102 then 12 else if b == 110 then 10 else if b == 114 then 13 else if b == 116 then 9
    else b
  }

  function HexCode(s: Text, i: nat): nat
    requires i + 4 <= |s| && HexRun(s, i, 4) == 4
  {
    ((HexValue(s[i]) * 16 + HexValue(s[i + 1])) * 16 + HexValue(s[i + 2])) * 16 + HexValue(s[i + 3])
  }

  function Next(s: Text, i: nat, inString: bool): (t: Token)
    requires i < |s|
    ensures 0 < t.size && i + t.size <= |s|
  {
    var b := s[i];
    if !inString then if b == QUOTE then Token(1, Opens, true) else Token(1, Outside(b), false)
    else if b == QUOTE then Token(1, Closes, false)
    else if b == BACKSLASH then
      if i + 1 == |s| || !IsValidEscape(s[i + 1]) then Token(1, Character(BACKSLASH), true)
      else if s[i + 1] != LETTER_U then Token(2, Character(EscapeCode(s[i + 1])), true)
      else if HexRun(s, i + 2, 4) == 4 then Token(6, Character(HexCode(s, i + 2)), true)
      else Token(2, BrokenUnicode, true)
    else Token(1, if b < 0x80 then Character(b) else RawByte(b), true)
  }

  function Read(s: Text, i: nat, inString: bool): seq<Symbol>
    requires i <= |s|
    decreases |s| - i
  {
    if i == |s| then []
    else
      var t := Next(s, i, inString);
      [t.symbol] + Read(s, i + t.size, t.inString)
  }

  // ----- The repair -----

  /** What is written for the token at `i`. */
  function Written(s: Text, i: nat, inString: bool): Text
    requires i < |s|
  {
    var b := s[i];
    if !inString || b == QUOTE then [b]
    else if b == BACKSLASH then
      if i + 1 == |s| || !IsValidEscape(s[i + 1]) then [BACKSLASH, BACKSLASH] else s[i..i + Next(s, i, true).size]
    else if IsControl(b) then EscapeControl(b)
    else [b]
  }

  function Repaired(s: Text, i: nat, inString: bool): Text
    requires i <= |s|
    decreases |s| - i
  {
    if i == |s| then []
    else
      var t := Next(s, i, inString);
      Written(s, i, inString) + Repaired(s, i + t.size, t.inString)
  }

  /** Inside strings there are no control bytes, and every backslash begins an escape of the table. */
  predicate Clean(s: Text, i: nat, inString: bool)
    requires i <= |s|
    decreases |s| - i
  {
    i == |s|
    || (CleanAt(s, i, inString)
        && var t := Next(s, i, inString);
           Clean(s, i + t.size, t.inString))
  }

  predicate CleanAt(s: Text, i: nat, inString: bool)
    requires i < |s|
  {
    inString ==> !IsControl(s[i]) && (s[i] == BACKSLASH ==> i + 1 < |s| && IsValidEscape(s[i + 1]))
  }

  method RepairJson(input: Text) returns (repaired: Text)
    ensures repaired == Repaired(input, 0, false)
  {
    hide Repaired, HexRun, HexCode, EscapeControl;
    repaired := [];
    var inString := false;
    var i := 0;
    RepairedSteps(input, 0, false);
    while i < |input|
      invariant i <= |input| && repaired + Repaired(input, i, inString) == [] + Repaired(input, 0, false)
    {
      ghost var before, was, at := repaired, inString, i;
      RepairedSteps(input, i, inString);
      var c := input[i];
      if !inString {
        repaired := repaired + [c];
        if c == QUOTE {
          inString := true;
        }
        i := i + 1;
      } else if c == QUOTE {
        repaired := repaired + [c];
        inString := false;
        i := i + 1;
      } else if c == BACKSLASH {
        if i + 1 >= |input| {
          repaired := repaired + [BACKSLASH, BACKSLASH];
          i := i + 1;
        } else if input[i + 1] == LETTER_U && HexRun(input, i + 2, 4) == 4 {
          assert [BACKSLASH, LETTER_U] + input[i + 2..i + 6] == input[i..i + 6];
          repaired := repaired + ([BACKSLASH, LETTER_U] + input[i + 2..i + 6]);
          i := i + 6;
        } else if IsValidEscape(input[i + 1]) {
          assert [BACKSLASH, input[i + 1]] == input[i..i + 2];
          repaired := repaired + [BACKSLASH, input[i + 1]];
          i := i + 2;
        } else {
          repaired := repaired + [BACKSLASH, BACKSLASH];
          i := i + 1;
        }
      } else {
        repaired := repaired + if IsControl(c) then EscapeControl(c) else [c];
        i := i + 1;
      }
      Associate(before, Written(input, at, was), Repaired(input, i, inString));
    }
    RepairedSteps(input, |input|, inString);
    assert repaired + [] == repaired && [] + Repaired(input, 0, false) == Repaired(input, 0, false);
  }

  lemma RepairedSteps(s: Text, i: nat, inString: bool)
    requires i <= |s|
    ensures Repaired(s, |s|, inString) == []
    ensures i < |s| ==>
            Repaired(s, i, inString) == Written(s, i, inString)
            + Repaired(s, i + Next(s, i, inString).size, Next(s, i, inString).inString)
  {
  }

  lemma Associate(a: Text, b: Text, c: Text)
    ensures a + (b + c) == (a + b) + c
  {
  }

  // ----- Shifting -----

  lemma {:induction false} HexRunShift(x: Text, y: Text, j: nat, n: nat)
    requires j <= |y|
    ensures HexRun(x + y, |x| + j, n) == HexRun(y, j, n)
    decreases n
  {
    if n > 0 && j < |y| {
      assert (x + y)[|x| + j] == y[j];
      HexRunShift(x, y, j + 1, n - 1);
    }
  }

  lemma NextShift(x: Text, y: Text, j: nat, inString: bool)
    requires j < |y|
    ensures Next(x + y, |x| + j, inString) == Next(y, j, inString)
    ensures Written(x + y, |x| + j, inString) == Written(y, j, inString)
    ensures CleanAt(x + y, |x| + j, inString) == CleanAt(y, j, inString)
  {
    assert forall m :: 0 <= m < |y| ==> (x + y)[|x| + m] == y[m];
    if j + 2 <= |y| {
      HexRunShift(x, y, j + 2, 4);
    }
    hide HexRun, EscapeControl;
    var size := Next(y, j, inString).size;
    assert (x + y)[|x| + j..|x| + j + size] == y[j..j + size];
  }

  lemma {:induction false} Shift(x: Text, y: Text, j: nat, inString: bool)
    requires j <= |y|
    ensures Read(x + y, |x| + j, inString) == Read(y, j, inString)
    ensures Repaired(x + y, |x| + j, inString) == Repaired(y, j, inString)
    ensures Clean(x + y, |x| + j, inString) == Clean(y, j, inString)
    decreases |y| - j
  {
    hide *;
    Unfold(y, j, inString);
    Unfold(x + y, |x| + j, inString);
    if j < |y| {
      NextShift(x, y, j, inString);
      var t := Next(y, j, inString);
      Shift(x, y, j + t.size, t.inString);
    }
  }

  lemma Unfold(s: Text, i: nat, inString: bool)
    requires i <= |s|
    ensures i == |s| ==> Read(s, i, inString) == [] && Repaired(s, i, inString) == [] && Clean(s, i, inString)
    ensures i < |s| ==>
              var t := Next(s, i, inString);
              && Read(s, i, inString) == [t.symbol] + Read(s, i + t.size, t.inString)
              && Repaired(s, i, inString) == Written(s, i, inString) + Repaired(s, i + t.size, t.inString)
              && Clean(s, i, inString) == (CleanAt(s, i, inString) && Clean(s, i + t.size, t.inString))
  {
    hide Next, Written, CleanAt;
  }

  // ----- The repaired text -----

  /** Repairing neither makes nor breaks a run of hexadecimal digits. */
  lemma {:induction false} HexRunKept(s: Text, i: nat, n: nat)
    requires i <= |s|
    ensures HexRun(Repaired(s, i, true), 0, n) == HexRun(s, i, n)
    decreases n
  {
    if n > 0 && i < |s| {
      FirstHex(s, i);
      hide Repaired, Written, Next;
      if IsHex(s[i]) {
        var rest := Repaired(s, i + 1, true);
        HexRunKept(s, i + 1, n - 1);
        HexRunShift([s[i]], rest, 0, n - 1);
        assert ([s[i]] + rest)[0] == s[i];
      }
    }
  }

  /** A digit is written as it is, and what is written for another byte begins with no digit. */
  lemma FirstHex(s: Text, i: nat)
    requires i < |s|
    ensures Repaired(s, i, true) != [] && IsHex(Repaired(s, i, true)[0]) == IsHex(s[i])
    ensures IsHex(s[i]) ==> Repaired(s, i, true) == [s[i]] + Repaired(s, i + 1, true)
  {
    hide HexRun;
    assert IsHex(s[i]) ==> Next(s, i, true).size == 1 && Next(s, i, true).inString;
    assert IsHex(Written(s, i, true)[0]) == IsHex(s[i]);
  }

  lemma EscapeReads(b: byte, rest: Text)
    requires IsControl(b)
    ensures var w := EscapeControl(b);
            && Next(w + rest, 0, true) == Token(|w|, Character(b), true) && Written(w + rest, 0, true) == w
               && CleanAt(w + rest, 0, true)
  {
    var w, t := EscapeControl(b), EscapeControl(b) + rest;
    assert t[0] == BACKSLASH && t[1] == w[1];
    assert t[0..|w|] == w;
    if |w| == 6 {
      var hi, lo := HexDigit(b / 16), HexDigit(b % 16);
      assert t[2] == ZERO && t[3] == ZERO && t[4] == hi && t[5] == lo;
      assert HexValue(hi) == b / 16 && HexValue(lo) == b % 16;
      assert HexCode(t, 2) == HexValue(hi) * 16 + HexValue(lo) == b;
    }
  }

  /** What a repaired text begins with is one token, and it says what the token it was written for says. */
  lemma TokenKept(s: Text, i: nat, inString: bool)
    requires i < |s|
    ensures var t, w := Next(s, i, inString), Written(s, i, inString);
            var out := w + Repaired(s, i + t.size, t.inString);
            && out != [] && Next(out, 0, inString) == Token(|w|, t.symbol, t.inString)
            && Written(out, 0, inString) == w && CleanAt(out, 0, inString)
  {
    hide Repaired, EscapeControl;
    var b, t, w := s[i], Next(s, i, inString), Written(s, i, inString);
    var rest := Repaired(s, i + t.size, t.inString);
    var out := w + rest;
    assert out[..|w|] == w && out[|w|..] == rest;
    if inString && b == BACKSLASH && i + 1 < |s| && IsValidEscape(s[i + 1]) {
      assert out[0] == BACKSLASH && out[1] == s[i + 1];
      if s[i + 1] == LETTER_U {
        UnicodeKept(s, i);
      }
    } else if inString && IsControl(b) {
      EscapeReads(b, rest);
    } else if inString && b == BACKSLASH {
      assert out[0] == BACKSLASH && out[1] == BACKSLASH && out[0..2] == w;
    } else {
      assert out[0] == b;
    }
  }

  lemma UnicodeKept(s: Text, i: nat)
    requires i + 1 < |s| && s[i] == BACKSLASH && s[i + 1] == LETTER_U
    ensures var t, w := Next(s, i, true), Written(s, i, true);
            var out := w + Repaired(s, i + t.size, true);
            && t.inString && Next(out, 0, true) == Token(|w|, t.symbol, true) && Written(out, 0, true) == w
  {
    hide Repaired;
    var t, w := Next(s, i, true), Written(s, i, true);
    var rest := Repaired(s, i + t.size, true);
    var out := w + rest;
    assert w == s[i..i + t.size];
    assert out[0] == BACKSLASH && out[1] == LETTER_U;
    if HexRun(s, i + 2, 4) == 4 {
      assert forall j :: 2 <= j < 6 ==> out[j] == s[i + j];
      assert out[0..6] == w;
    } else {
      HexRunKept(s, i + 2, 4);
      HexRunShift(w, rest, 0, 4);
      assert out[0..2] == w;
    }
  }

  /** The repaired text is clean, is its own repair, and says, symbol for symbol, what the input says read leniently: so
      its strings begin and end with the same symbols. */
  lemma {:induction false} RepairIsFaithful(s: Text, i: nat, inString: bool)
    requires i <= |s|
    ensures var out := Repaired(s, i, inString);
            && Clean(out, 0, inString)
            && Repaired(out, 0, inString) == out
            && Read(out, 0, inString) == Read(s, i, inString)
    decreases |s| - i
  {
    hide Next, Written, CleanAt, EscapeControl;
    if i < |s| {
      var t, w := Next(s, i, inString), Written(s, i, inString);
      var rest := Repaired(s, i + t.size, t.inString);
      TokenKept(s, i, inString);
      RepairIsFaithful(s, i + t.size, t.inString);
      Shift(w, rest, 0, t.inString);
    }
  }

  lemma {:induction false} CleanStays(s: Text, i: nat, inString: bool)
    requires i <= |s|
    ensures Clean(s, i, inString) <==> Repaired(s, i, inString) == s[i..]
    decreases |s| - i
  {
    hide *;
    Unfold(s, i, inString);
    if i < |s| {
      var t := Next(s, i, inString);
      CleanStays(s, i + t.size, t.inString);
      WrittenIs(s, i, inString);
      RepairedGrows(s, i + t.size, t.inString);
      SplitAt(s, i, i + t.size, Written(s, i, inString), Repaired(s, i + t.size, t.inString));
    } else {
      assert s[i..] == [];
    }
  }

  lemma SplitAt(s: Text, i: nat, j: nat, w: Text, rest: Text)
    requires i <= j <= |s| && |w| >= j - i && |rest| >= |s| - j
    ensures w + rest == s[i..] <==> w == s[i..j] && rest == s[j..]
  {
    assert s[i..] == s[i..j] + s[j..];
    if w + rest == s[i..] {
      assert |w| == j - i;
      assert w == (w + rest)[..j - i] == s[i..j];
      assert rest == (w + rest)[j - i..] == s[j..];
    }
  }

  lemma WrittenIs(s: Text, i: nat, inString: bool)
    requires i < |s|
    ensures var t := Next(s, i, inString);
            && |Written(s, i, inString)| >= t.size
            && (CleanAt(s, i, inString) <==> Written(s, i, inString) == s[i..i + t.size])
  {
    hide HexCode, HexRun;
    var t := Next(s, i, inString);
    assert t.size == 1 ==> s[i..i + t.size] == [s[i]];
  }

  lemma {:induction false} RepairedGrows(s: Text, i: nat, inString: bool)
    requires i <= |s|
    ensures |Repaired(s, i, inString)| >= |s| - i
    decreases |s| - i
  {
    hide Repaired, Written, CleanAt;
    RepairedSteps(s, i, inString);
    if i < |s| {
      WrittenIs(s, i, inString);
      var t := Next(s, i, inString);
      RepairedGrows(s, i + t.size, t.inString);
    }
  }

  function Repair(s: Text): Text {
    Repaired(s, 0, false)
  }

  /** Repair always gives a clean text with the same reading, changes nothing the second time, and changes a text
      exactly when it is not clean. */
  lemma RepairIsIdempotent(s: Text)
    ensures Clean(Repair(s), 0, false) && Repair(Repair(s)) == Repair(s)
    ensures Read(Repair(s), 0, false) == Read(s, 0, false)
    ensures Repair(s) == s <==> Clean(s, 0, false)
  {
    hide Repaired, Clean, Read;
    RepairIsFaithful(s, 0, false);
    CleanStays(s, 0, false);
    assert s[0..] == s;
  }

  /** The characters of plain text. */
  function Characters(t: Text): seq<Symbol> {
    seq(|t|, i requires 0 <= i < |t| => Character(t[i]))
  }

  /** Text that a careless writer could put between quotes as it is: ASCII, with neither quotes nor backslashes, but
      with any control bytes. */
  predicate IsPlain(t: Text) {
    forall i :: 0 <= i < |t| ==> t[i] < 0x80 && t[i] != QUOTE && t[i] != BACKSLASH
  }

  lemma {:induction false} PlainReads(t: Text, rest: Text)
    requires IsPlain(t)
    ensures Read(t + rest, 0, true) == Characters(t) + Read(rest, 0, true)
    decreases |t|
  {
    hide Read, Repaired, Clean, Written, CleanAt;
    if t == [] {
      assert t + rest == rest && Characters(t) + Read(rest, 0, true) == Read(rest, 0, true);
    } else {
      var s, more := t + rest, t[1..] + rest;
      assert s == [t[0]] + more && s[0] == t[0];
      Unfold(s, 0, true);
      assert Next(s, 0, true) == Token(1, Character(t[0]), true);
      Shift([t[0]], more, 0, true);
      PlainReads(t[1..], rest);
      assert Characters(t) == [Character(t[0])] + Characters(t[1..]);
      assert [Character(t[0])] + (Characters(t[1..]) + Read(rest, 0, true)) ==
             [Character(t[0])] + Characters(t[1..]) + Read(rest, 0, true);
    }
  }

  /** Whatever was put between quotes carelessly is read back character by character once repaired: line breaks and
      other control bytes included. */
  lemma RawStringSurvives(t: Text, rest: Text)
    requires IsPlain(t)
    ensures var s := [QUOTE] + (t + ([QUOTE] + rest));
            Clean(Repair(s), 0, false)
            && Read(Repair(s), 0, false) == [Opens] + (Characters(t) + ([Closes] + Read(rest, 0, false)))
  {
    hide Repaired, Clean, Written, CleanAt, Read;
    var tail := [QUOTE] + rest;
    var s := [QUOTE] + (t + tail);
    RepairIsIdempotent(s);
    Unfold(s, 0, false);
    assert s[0] == QUOTE && tail[0] == QUOTE;
    Shift([QUOTE], t + tail, 0, true);
    PlainReads(t, tail);
    Unfold(tail, 0, true);
    Shift([QUOTE], rest, 0, false);
  }
}
