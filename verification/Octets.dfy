/** Octet strings, and the concatenation of a list of them. */
module Octets {

  type Byte = bv8
  type Bytes = seq<Byte>

  datatype Option<+T> = None | Some(value: T)

  /** One 20 ms PCM frame: 320 samples of two bytes. */
  const FRAME_BYTES: nat := 640

  /** The octet with value `n` modulo 256. */
  function Octet(n: nat): Byte
  {
    if n == 0 then 0 else Octet(n - 1) + 1
  }

  lemma {:induction false} OctetValue(n: nat)
    requires n < 256
    ensures Octet(n) as int == n
  {
    if n > 0 {
      OctetValue(n - 1);
    }
  }

  /** The octets of `parts`, one after the other. */
  function Concat(parts: seq<Bytes>): Bytes
  {
    if parts == [] then [] else parts[0] + Concat(parts[1..])
  }

  lemma {:induction false} ConcatSplit(a: seq<Bytes>, b: seq<Bytes>)
    ensures Concat(a + b) == Concat(a) + Concat(b)
  {
    if a == [] {
      assert a + b == b;
    } else {
      assert (a + b)[1..] == a[1..] + b;
      ConcatSplit(a[1..], b);
    }
  }

  lemma ConcatSnoc(a: seq<Bytes>, x: Bytes)
    ensures Concat(a + [x]) == Concat(a) + x
  {
    ConcatSplit(a, [x]);
    assert Concat([x]) == x + Concat([]);
  }

  lemma {:induction false} ConcatLength(parts: seq<Bytes>, n: nat)
    requires forall i :: 0 <= i < |parts| ==> |parts[i]| == n
    ensures |Concat(parts)| == |parts| * n
  {
    if parts != [] {
      assert forall i :: 0 <= i < |parts[1..]| ==> |parts[1..][i]| == n;
      ConcatLength(parts[1..], n);
    }
  }
}
