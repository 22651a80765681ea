/**
 The deterministic speech-to-text stub that the inference server runs and the
 load generator recomputes (crates/stt-stub/src/lib.rs). A root mean square is
 carried as its square, an exact non-negative number.
 */
module Stub {
  import opened Octets

  const FNV_OFFSET: bv32 := 2_166_136_261
  const POOL_SIZE: int := 24

  /** Two little-endian octets of PCM. */
  datatype Sample = Sample(lo: Byte, hi: Byte) {
    /** The sample as a signed 16-bit integer. */
    function Value(): int
    {
      var u := lo as int + 256 * (hi as int);
      if u >= 32768 then u - 65536 else u
    }

    /** The same sixteen bits as an unsigned word. */
    function Word(): bv16
    {
      ((hi as bv16) << 8) | (lo as bv16)
    }
  }

  /** The square of an rms. */
  type Power = x: real | x >= 0.0

  datatype StubResult = StubResult(
    power: Power, zeroCrossings: nat, checksum: bv32, samples: nat, transcript: nat, audioBytes: nat)

  /** `chunks_exact(2)`: a trailing odd octet is ignored. */
  function Samples(payload: Bytes): (ss: seq<Sample>)
    ensures |ss| == |payload| / 2
  {
    seq(|payload| / 2, i requires 0 <= i < |payload| / 2 => Sample(payload[2 * i], payload[2 * i + 1]))
  }

  /** The loop-carried variables of the scan. */
  datatype Scan = Scan(checksum: bv32, crossings: nat, squares: nat, count: nat, previous: int)

  const START := Scan(FNV_OFFSET, 0, 0, 0, 0)

  predicate Crosses(previous: int, current: int)
  {
    (current < 0 && previous >= 0) || (previous < 0 && current >= 0)
  }

  /** The low sixteen bits of a pass index. */
  function PassWord(pass: nat): bv16
  {
    if pass == 0 then 0 else PassWord(pass - 1) + 1
  }

  function Plus(a: bv16, b: bv16): bv16 { a + b }

  function Offset(word: bv16, pass: bv16): bv16 { Plus(Plus(word, 0x8000), pass) }

  /** The low sixteen bits of `sample + 32768 + pass`. */
  function Adjusted(s: Sample, pass: nat): bv16
  {
    Offset(s.Word(), PassWord(pass))
  }

  /** Multiplication by the FNV prime, modulo 2^32. */
  function TimesPrime(x: bv32): bv32 { x * 16_777_619 }

  function Mix(checksum: bv32, word: bv16): bv32
  {
    TimesPrime(checksum ^ (word as bv32))
  }

  function Square(x: int): nat { x * x }

  function Visit(z: Scan, s: Sample, pass: nat): Scan
  {
    Scan(
      Mix(z.checksum, Adjusted(s, pass)),
      z.crossings + (if z.count > 0 && Crosses(z.previous, s.Value()) then 1 else 0),
      z.squares + Square(s.Value()),
      z.count + 1,
      s.Value())
  }

  /** One pass over `ss`, left to right. */
  function ScanPass(z: Scan, ss: seq<Sample>, pass: nat): Scan
    decreases |ss|
  {
    if ss == [] then z else Visit(ScanPass(z, ss[..|ss| - 1], pass), ss[|ss| - 1], pass)
  }

  /** Passes `0..passes`, each over the whole payload. */
  function ScanAll(ss: seq<Sample>, passes: nat): Scan
  {
    if passes == 0 then START else ScanPass(ScanAll(ss, passes - 1), ss, passes - 1)
  }

  /** The index into the pool of transcript words. */
  function Transcript(checksum: bv32): nat
  {
    (checksum as int) % POOL_SIZE
  }

  function MeanSquare(squares: nat, count: nat): Power
  {
    if count == 0 then 0.0 else squares as real / count as real
  }

  function ComputeStub(payload: Bytes, passes: nat): StubResult
  {
    var z := ScanAll(Samples(payload), passes);
    StubResult(MeanSquare(z.squares, z.count), z.crossings, z.checksum, z.count, Transcript(z.checksum), |payload|)
  }
}
