/** Bytes and sequences of Writes, shared by the stream modules. */
module Bytes {

  newtype byte = x: int | 0 <= x < 256

  const LF: byte := 10
  const CR: byte := 13

  function Concat(writes: seq<seq<byte>>): seq<byte> {
    if writes == [] then [] else writes[0] + Concat(writes[1..])
  }

  // Position of the first b, or |data|.
  function FirstIndex(data: seq<byte>, b: byte): (i: nat)
    ensures i <= |data| && b !in data[..i]
    ensures i < |data| ==> data[i] == b
  {
    if data == [] || data[0] == b then 0
    else
      var i := FirstIndex(data[1..], b);
      assert data[..1 + i] == [data[0]] + data[1..][..i];
      1 + i
  }

  lemma FirstIndexIs(data: seq<byte>, b: byte, i: nat)
    requires i <= |data| && b !in data[..i] && (i < |data| ==> data[i] == b)
    ensures FirstIndex(data, b) == i
  {
    var k := FirstIndex(data, b);
    assert forall m :: 0 <= m < i ==> data[m] == data[..i][m];
    assert forall m :: 0 <= m < k ==> data[m] == data[..k][m];
  }

  lemma FirstIndexInPrefix(a: seq<byte>, c: seq<byte>, b: byte)
    ensures FirstIndex(a, b) < |a| ==> FirstIndex(a + c, b) == FirstIndex(a, b)
    ensures FirstIndex(a, b) == |a| ==> FirstIndex(a + c, b) >= |a|
  {
    var i := FirstIndex(a, b);
    if i < |a| {
      assert (a + c)[..i] == a[..i];
      FirstIndexIs(a + c, b, i);
    } else {
      assert forall m :: 0 <= m < |a| ==> a[m] == a[..|a|][m];
    }
  }
}
