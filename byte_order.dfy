/** Byte-order reversal of a 32-bit float, done on its four bytes. */
module ByteOrder {

  type Bytes4 = s: seq<bv8> | |s| == 4 witness [0, 0, 0, 0]

  /** The four bytes of the value in reverse order. */
  function ReverseFloat(b: Bytes4): (r: Bytes4)
    ensures forall i :: 0 <= i < 4 ==> r[i] == b[3 - i]
  {
    [b[3], b[2], b[1], b[0]]
  }

  /** Reversing twice restores the original bytes, so the conversion is its own
      inverse and in particular one-to-one. */
  lemma {:induction false} ReverseFloatInvolution(b: Bytes4)
    ensures ReverseFloat(ReverseFloat(b)) == b
  {
    var r := ReverseFloat(b);
    assert forall i :: 0 <= i < 4 ==> ReverseFloat(r)[i] == b[i];
  }

  lemma {:induction false} ReverseFloatInjective(a: Bytes4, b: Bytes4)
    requires ReverseFloat(a) == ReverseFloat(b)
    ensures a == b
  {
    ReverseFloatInvolution(a);
    ReverseFloatInvolution(b);
  }
}
