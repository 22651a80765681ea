/** The stub's loop computes its closed form, and its checksum tells single samples apart. */
module StubTheorems {
  import opened Octets
  import opened Stub

  /** The body of the inner loop of `compute_stub`. */
  method StepSample(s: Sample, pass: nat, z: Scan) returns (z1: Scan)
    ensures z1 == Visit(z, s, pass)
  {
    var value := s.Value();
    var crossings := z.crossings;
    if z.count > 0 && ((value < 0 && z.previous >= 0) || (z.previous < 0 && value >= 0)) {
      crossings := crossings + 1;
    }
    var checksum := Mix(z.checksum, Adjusted(s, pass));
    var squares := z.squares + Square(value);
    z1 := Scan(checksum, crossings, squares, z.count + 1, value);
  }

  /** `compute_stub`: one nested loop over passes and samples. */
  method RunStub(payload: Bytes, passes: nat) returns (r: StubResult)
    ensures r == ComputeStub(payload, passes)
  {
    var z := START;
    ghost var ss := Samples(payload);
    for pass := 0 to passes
      invariant z == ScanAll(ss, pass)
    {
      for i := 0 to |payload| / 2
        invariant z == ScanPass(ScanAll(ss, pass), ss[..i], pass)
      {
        assert ss[..i + 1][..i] == ss[..i] && ss[..i + 1][i] == Sample(payload[2 * i], payload[2 * i + 1]);
        z := StepSample(Sample(payload[2 * i], payload[2 * i + 1]), pass, z);
      }
      assert ss[..|payload| / 2] == ss;
    }
    var power := MeanSquare(z.squares, z.count);
    r := StubResult(power, z.crossings, z.checksum, z.count, Transcript(z.checksum), |payload|);
  }

  // ---------------------------------------------------------------- closed form

  /** Sign changes between neighbouring samples. */
  function SignChanges(ss: seq<Sample>): nat
    decreases |ss|
  {
    if |ss| <= 1 then 0
    else SignChanges(ss[..|ss| - 1])
         + if Crosses(ss[|ss| - 2].Value(), ss[|ss| - 1].Value()) then 1 else 0
  }

  function SquareSum(ss: seq<Sample>): nat
    decreases |ss|
  {
    if ss == [] then 0
    else SquareSum(ss[..|ss| - 1]) + Square(ss[|ss| - 1].Value())
  }

  /** The sign change from the end of one pass to the start of the next. */
  function Wrap(ss: seq<Sample>): nat
    requires ss != []
  {
    if Crosses(ss[|ss| - 1].Value(), ss[0].Value()) then 1 else 0
  }

  lemma {:induction false} PassAdds(z: Scan, ss: seq<Sample>, pass: nat)
    requires ss != []
    ensures
      var z1 := ScanPass(z, ss, pass);
      && z1.count == z.count + |ss|
      && z1.squares == z.squares + SquareSum(ss)
      && z1.previous == ss[|ss| - 1].Value()
      && z1.crossings == z.crossings + SignChanges(ss)
           + if z.count > 0 && Crosses(z.previous, ss[0].Value()) then 1 else 0
    decreases |ss|
  {
    var init := ss[..|ss| - 1];
    if init == [] {
      assert ScanPass(z, init, pass) == z;
      assert SquareSum(init) == 0;
    } else {
      PassAdds(z, init, pass);
      assert init[|init| - 1] == ss[|ss| - 2] && init[0] == ss[0];
    }
  }

  /**
   The nested loop in closed form: with `n` samples and `passes` passes, the
   sample count and the sum of squares scale with the passes, and every pass but
   the first adds the wrap-around crossing.
   */
  lemma {:induction false} ClosedForm(ss: seq<Sample>, passes: nat)
    requires ss != [] && passes >= 1
    ensures
      var z := ScanAll(ss, passes);
      && z.count == passes * |ss|
      && z.squares == passes * SquareSum(ss)
      && z.crossings == passes * SignChanges(ss) + (passes - 1) * Wrap(ss)
      && z.previous == ss[|ss| - 1].Value()
  {
    PassAdds(ScanAll(ss, passes - 1), ss, passes - 1);
    if passes > 1 {
      ClosedForm(ss, passes - 1);
      ClosedSteps(passes, |ss|, SquareSum(ss), SignChanges(ss), Wrap(ss));
    } else {
      assert ScanAll(ss, 0) == START;
    }
  }

  lemma OneMore(n: int, x: int)
    ensures (n - 1) * x + x == n * x
  {
  }

  lemma ClosedSteps(passes: int, count: int, squares: int, inner: int, wrap: int)
    requires passes > 1 && count > 0
    ensures (passes - 1) * count + count == passes * count && (passes - 1) * count > 0
    ensures (passes - 1) * squares + squares == passes * squares
    ensures (passes - 1) * inner + inner == passes * inner && (passes - 2) * wrap + wrap == (passes - 1) * wrap
  {
    OneMore(passes, count);
    OneMore(passes, squares);
    OneMore(passes, inner);
    OneMore(passes - 1, wrap);
  }

  // ------------------------------------------------------------------- checksum

  /** The inverse of the FNV prime modulo 2^32. */
  function DividesPrime(y: bv32): bv32 { y * 899_433_627 }

  lemma PrimeUndone(x: bv32)
    ensures DividesPrime(x * 16_777_619) == x
  {
  }

  lemma PrimeInjective(x: bv32, y: bv32)
    requires TimesPrime(x) == TimesPrime(y)
    ensures x == y
  {
    PrimeUndone(x);
    PrimeUndone(y);
  }

  lemma XorWords(c: bv32, d: bv32, v: bv16, w: bv16)
    ensures c ^ (v as bv32) == c ^ (w as bv32) ==> v == w
    ensures c ^ (w as bv32) == d ^ (w as bv32) ==> c == d
  {
    assert c ^ (c ^ (v as bv32)) == (v as bv32);
    assert c ^ (c ^ (w as bv32)) == (w as bv32);
    assert (c ^ (w as bv32)) ^ (w as bv32) == c;
    assert (d ^ (w as bv32)) ^ (w as bv32) == d;
  }

  /** One mixing step loses neither the checksum so far nor the word mixed in. */
  lemma MixKeepsApart(c: bv32, d: bv32, v: bv16, w: bv16)
    ensures v != w ==> Mix(c, v) != Mix(c, w)
    ensures c != d ==> Mix(c, w) != Mix(d, w)
  {
    XorWords(c, d, v, w);
    if Mix(c, v) == Mix(c, w) { PrimeInjective(c ^ (v as bv32), c ^ (w as bv32)); }
    if Mix(c, w) == Mix(d, w) { PrimeInjective(c ^ (w as bv32), d ^ (w as bv32)); }
  }

  lemma BytesApart(l1: Byte, h1: Byte, l2: Byte, h2: Byte)
    requires ((h1 as bv16) << 8) | (l1 as bv16) == ((h2 as bv16) << 8) | (l2 as bv16)
    ensures l1 == l2 && h1 == h2
  {
  }

  lemma SumsApart(a: bv16, b: bv16, k: bv16)
    requires Offset(a, k) == Offset(b, k)
    ensures a == b
  {
    PlusCancels(Plus(a, 0x8000), Plus(b, 0x8000), k);
    PlusCancels(a, b, 0x8000);
  }

  lemma PlusCancels(a: bv16, b: bv16, k: bv16)
    requires Plus(a, k) == Plus(b, k)
    ensures a == b
  {
    AddCancels(a, b, k);
  }

  lemma AddCancels(a: bv16, b: bv16, k: bv16)
    ensures a + k == b + k ==> a == b
  {
    assert (a + k) - k == a;
    assert (b + k) - k == b;
  }

  lemma SameWord(a: Sample, b: Sample)
    requires a.Word() == b.Word()
    ensures a == b
  {
    BytesApart(a.lo, a.hi, b.lo, b.hi);
  }

  lemma WordsApart(a: Sample, b: Sample, pass: nat)
    requires Adjusted(a, pass) == Adjusted(b, pass)
    ensures a.Word() == b.Word()
  {
    SumsApart(a.Word(), b.Word(), PassWord(pass));
  }

  lemma {:induction false} PassKeepsApart(z: Scan, ss: seq<Sample>, ts: seq<Sample>, pass: nat, i: nat)
    requires |ss| == |ts| && i < |ss| && ss[i] != ts[i]
    requires forall j :: 0 <= j < |ss| && j != i ==> ss[j] == ts[j]
    ensures ScanPass(z, ss, pass).checksum != ScanPass(z, ts, pass).checksum
    decreases |ss|
  {
    var n := |ss| - 1;
    var c, d := ScanPass(z, ss[..n], pass).checksum, ScanPass(z, ts[..n], pass).checksum;
    if i == n {
      assert ss[..n] == ts[..n];
      if Adjusted(ss[n], pass) == Adjusted(ts[n], pass) {
        WordsApart(ss[n], ts[n], pass);
        SameWord(ss[n], ts[n]);
      }
    } else {
      PassKeepsApart(z, ss[..n], ts[..n], pass, i);
    }
    MixKeepsApart(c, d, Adjusted(ss[n], pass), Adjusted(ts[n], pass));
  }

  /** At one pass, two payloads that differ in exactly one sample never share a checksum. */
  lemma OneSampleChangesChecksum(p: Bytes, q: Bytes, i: nat)
    requires |Samples(p)| == |Samples(q)| && i < |Samples(p)| && Samples(p)[i] != Samples(q)[i]
    requires forall j :: 0 <= j < |Samples(p)| && j != i ==> Samples(p)[j] == Samples(q)[j]
    ensures ComputeStub(p, 1).checksum != ComputeStub(q, 1).checksum
  {
    PassKeepsApart(START, Samples(p), Samples(q), 0, i);
    assert ScanAll(Samples(p), 0) == START && ScanAll(Samples(q), 0) == START;
  }
}
