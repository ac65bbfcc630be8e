/** Byte strings, as the source's Go strings and byte slices hold them. */
module Bytes {

  type byte = x: int | 0 <= x < 256

  type Text = seq<byte>

  const NEWLINE: byte := 10
  const CARRIAGE_RETURN: byte := 13
  const SPACE: byte := 32

  /** The pieces one after the other, with nothing between them. */
  function Concat(pieces: seq<Text>): Text {
    if pieces == [] then [] else pieces[0] + Concat(pieces[1..])
  }

  lemma ConcatAppend(a: seq<Text>, b: seq<Text>)
    ensures Concat(a + b) == Concat(a) + Concat(b)
  {
    if a == [] {
      assert a + b == b;
    } else {
      assert (a + b)[1..] == a[1..] + b;
      ConcatAppend(a[1..], b);
    }
  }

  lemma ConcatSnoc(a: seq<Text>, t: Text)
    ensures Concat(a + [t]) == Concat(a) + t
  {
    ConcatAppend(a, [t]);
    assert Concat([t]) == t + Concat([]);
  }

  /** The index of the first newline at or after `from`, or the length when there is none. */
  function NewlineFrom(s: Text, from: nat): (k: nat)
    requires from <= |s|
    ensures from <= k <= |s|
    ensures k < |s| ==> s[k] == NEWLINE
    ensures forall i :: from <= i < k ==> s[i] != NEWLINE
    decreases |s| - from
  {
    if from == |s| || s[from] == NEWLINE then from else NewlineFrom(s, from + 1)
  }

  function FirstNewline(s: Text): (k: nat)
    ensures k <= |s|
    ensures k < |s| ==> s[k] == NEWLINE
    ensures forall i :: 0 <= i < k ==> s[i] != NEWLINE
  {
    NewlineFrom(s, 0)
  }

  lemma FirstNewlineIs(s: Text, k: nat)
    requires k <= |s| && (forall i :: 0 <= i < k ==> s[i] != NEWLINE)
    requires k < |s| ==> s[k] == NEWLINE
    ensures FirstNewline(s) == k
  {
    hide *;
    var f := FirstNewline(s);
  }

  function CountNewlines(s: Text): nat {
    multiset(s)[NEWLINE]
  }
}
