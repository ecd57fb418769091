/** Element-wise conversion of an embedding vector, the loop every float
    conversion of the code base is written as: `make` a slice of the same
    length, then set element j from element j of the input. The element
    types stand for `float32` and `float64`; the conversion itself is a
    parameter. */
module Vectors {

  /** The converted vector, element by element. */
  function Converted<A, B>(v: seq<A>, convert: A -> B): (r: seq<B>)
  {
    seq(|v|, j requires 0 <= j < |v| => convert(v[j]))
  }

  /** The conversion loop: one element written per index, in place, into a
      fresh buffer of the input's length. */
  method Convert<A, B(0)>(v: seq<A>, convert: A -> B) returns (out: seq<B>)
    ensures |out| == |v|
    ensures forall j :: 0 <= j < |v| ==> out[j] == convert(v[j])
    ensures out == Converted(v, convert)
  {
    var buffer := new B[|v|];
    for j := 0 to |v|
      invariant forall k :: 0 <= k < j ==> buffer[k] == convert(v[k])
    {
      buffer[j] := convert(v[j]);
    }
    out := buffer[..];
  }
}
