/** Bytes, and machine words stored as eight little-endian bytes. */
module Bytes {
  type byte = x: int | 0 <= x < 256

  /** Number of bytes in a pointer. */
  const WORD: nat := 8

  function Pow256(n: nat): nat {
    if n == 0 then 1 else 256 * Pow256(n - 1)
  }

  function Encode(v: nat, n: nat): (s: seq<byte>)
    ensures |s| == n
  {
    if n == 0 then [] else [v % 256] + Encode(v / 256, n - 1)
  }

  function Decode(s: seq<byte>): nat {
    if s == [] then 0 else s[0] + 256 * Decode(s[1..])
  }

  /** Storing a value and reading it back is the identity on values that fit. */
  lemma {:induction false} DecodeEncode(v: nat, n: nat)
    requires v < Pow256(n)
    ensures Decode(Encode(v, n)) == v
  {
    if n > 0 {
      DecodeEncode(v / 256, n - 1);
      assert Encode(v, n)[1..] == Encode(v / 256, n - 1);
    }
  }

  /** The word at offset `at`, or 0 when the offset is out of range. */
  function Load(m: seq<byte>, at: int): nat {
    if 0 <= at <= |m| - WORD then Decode(m[at..at + WORD]) else 0
  }

  /** Memory after writing the word `v` at offset `at`. */
  function Store(m: seq<byte>, at: int, v: nat): (m': seq<byte>)
    requires 0 <= at <= |m| - WORD
    ensures |m'| == |m|
  {
    m[..at] + Encode(v, WORD) + m[at + WORD..]
  }

  /** Reading the word just stored gives it back. */
  lemma LoadStored(m: seq<byte>, at: int, v: nat)
    requires 0 <= at <= |m| - WORD
    requires v < Pow256(WORD)
    ensures Load(Store(m, at, v), at) == v
  {
    DecodeEncode(v, WORD);
    assert Store(m, at, v)[at..at + WORD] == Encode(v, WORD);
  }

  /** A stored word leaves every word it does not overlap as it was. */
  lemma LoadElsewhere(m: seq<byte>, at: int, v: nat, other: int)
    requires 0 <= at <= |m| - WORD
    requires other + WORD <= at || at + WORD <= other
    ensures Load(Store(m, at, v), other) == Load(m, other)
  {
    var m' := Store(m, at, v);
    if 0 <= other <= |m| - WORD {
      assert forall k :: other <= k < other + WORD ==> m'[k] == m[k];
      assert m'[other..other + WORD] == m[other..other + WORD];
    }
  }

  /** So does a single byte. */
  lemma LoadAroundByte(m: seq<byte>, at: int, b: byte, other: int)
    requires 0 <= at < |m|
    requires other + WORD <= at || at < other
    ensures Load(m[at := b], other) == Load(m, other)
  {
    if 0 <= other <= |m| - WORD {
      assert m[at := b][other..other + WORD] == m[other..other + WORD];
    }
  }
}
