/**
 * Measurement bit strings and the decision vectors they encode. Qiskit prints
 * qubit 0 as the LAST character, so road i is read from position len − 1 − i.
 */
module Bitstrings {

  /** A decision vector: one 0/1 entry per road, 1 meaning "rebuild now". */
  predicate IsBinary(x: seq<int>)
  {
    forall i :: 0 <= i < |x| ==> x[i] == 0 || x[i] == 1
  }

  predicate IsBitString(s: string)
  {
    forall i :: 0 <= i < |s| ==> s[i] == '0' || s[i] == '1'
  }

  /** `int(b)` for a character b of a bit string. */
  function Bit(ch: char): (r: int)
    requires ch == '0' || ch == '1'
    ensures r == 0 || r == 1
    ensures r == 1 <==> ch == '1'
  {
    if ch == '1' then 1 else 0
  }

  /** `[int(b) for b in bitstring[::-1]]`. */
  function Decode(s: string): (x: seq<int>)
    requires IsBitString(s)
    ensures |x| == |s| && IsBinary(x)
  {
    seq(|s|, i requires 0 <= i < |s| => Bit(s[|s| - 1 - i]))
  }

  /** The bit string whose decoding is x: entry 0 becomes the last character. */
  function Encode(x: seq<int>): (s: string)
    requires IsBinary(x)
    ensures |s| == |x| && IsBitString(s)
  {
    seq(|x|, k requires 0 <= k < |x| => if x[|x| - 1 - k] == 1 then '1' else '0')
  }

  /** Decoding is a bijection between bit strings and 0/1 vectors of the same length. */
  lemma DecodeEncode(x: seq<int>)
    requires IsBinary(x)
    ensures Decode(Encode(x)) == x
  {
    var d := Decode(Encode(x));
    forall i | 0 <= i < |x| ensures d[i] == x[i] {
      var k := |x| - 1 - i;
      assert |x| - 1 - k == i;
      assert Encode(x)[k] == (if x[i] == 1 then '1' else '0');
      assert d[i] == Bit(Encode(x)[k]);
    }
  }

  lemma EncodeDecode(s: string)
    requires IsBitString(s)
    ensures Encode(Decode(s)) == s
  {
    var e := Encode(Decode(s));
    forall k | 0 <= k < |s| ensures e[k] == s[k] {
      assert Decode(s)[|s| - 1 - k] == Bit(s[k]);
    }
  }

  /** Road i is selected exactly when the character at position len − 1 − i is '1'. */
  lemma DecodeReadsReversed(s: string, i: nat)
    requires IsBitString(s) && i < |s|
    ensures Decode(s)[i] == 1 <==> s[|s| - 1 - i] == '1'
  {
    assert Decode(s)[i] == Bit(s[|s| - 1 - i]);
  }

  /** The all-'0' string decodes to the all-zero vector. */
  lemma DecodeAllZeros(s: string)
    requires forall k :: 0 <= k < |s| ==> s[k] == '0'
    ensures IsBitString(s)
    ensures forall i :: 0 <= i < |s| ==> Decode(s)[i] == 0
  {
    assert IsBitString(s);
    forall i | 0 <= i < |s| ensures Decode(s)[i] == 0 {
      assert s[|s| - 1 - i] == '0';
      assert Decode(s)[i] == Bit(s[|s| - 1 - i]);
    }
  }
}
