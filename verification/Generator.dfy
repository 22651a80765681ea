/**
 The load generator's deterministic audio (loadgen/rust/src/protocol.rs:115-167):
 frame `seqNo` of a session is a sawtooth with splitmix64 noise, seeded by the
 session and the sequence number.
 */
module Generator {
  import opened Octets
  import opened Stub

  const GAMMA: bv64 := 0x9E37_79B9_7F4A_7C15
  const SAW_PERIOD: int := 20_000
  const SAW_STEP: int := 17
  const NOISE_HALF: int := 256
  const SAMPLES_PER_FRAME: nat := 320

  function ShiftXor30(z: bv64): bv64 { z ^ (z >> 30) }
  function ShiftXor27(z: bv64): bv64 { z ^ (z >> 27) }
  function ShiftXor31(z: bv64): bv64 { z ^ (z >> 31) }
  function TimesA(z: bv64): bv64 { z * 0xBF58_476D_1CE4_E5B9 }
  function TimesB(z: bv64): bv64 { z * 0x94D0_49BB_1331_11EB }

  /** The splitmix64 finalizer. */
  function Mix64(z: bv64): bv64
  {
    ShiftXor31(TimesB(ShiftXor27(TimesA(ShiftXor30(z)))))
  }

  // ----------------------------------------------------- Mix64 is a bijection

  function Undo30(y: bv64): bv64 { y ^ (y >> 30) ^ (y >> 60) }
  function Undo27(y: bv64): bv64 { y ^ (y >> 27) ^ (y >> 54) }
  function Undo31(y: bv64): bv64 { y ^ (y >> 31) ^ (y >> 62) }
  /** Multiplication by the inverses of the two odd constants modulo 2^64. */
  function DividesA(y: bv64): bv64 { y * 0x96DE_1B17_3F11_9089 }
  function DividesB(y: bv64): bv64 { y * 0x3196_42B2_D24D_8EC3 }

  /** The inverse steps, in reverse order. */
  function Unmix64(y: bv64): bv64
  {
    Undo30(DividesA(Undo27(DividesB(Undo31(y)))))
  }

  lemma Undone30(z: bv64)
    ensures Undo30(z ^ (z >> 30)) == z && ShiftXor30(z ^ (z >> 30) ^ (z >> 60)) == z
  {
  }

  lemma Undone27(z: bv64)
    ensures Undo27(z ^ (z >> 27)) == z && ShiftXor27(z ^ (z >> 27) ^ (z >> 54)) == z
  {
  }

  lemma Undone31(z: bv64)
    ensures Undo31(z ^ (z >> 31)) == z && ShiftXor31(z ^ (z >> 31) ^ (z >> 62)) == z
  {
  }

  lemma UndoneA(z: bv64)
    ensures DividesA(z * 0xBF58_476D_1CE4_E5B9) == z && TimesA(z * 0x96DE_1B17_3F11_9089) == z
  {
  }

  lemma UndoneB(z: bv64)
    ensures DividesB(z * 0x94D0_49BB_1331_11EB) == z && TimesB(z * 0x3196_42B2_D24D_8EC3) == z
  {
  }

  lemma Steps30(z: bv64)
    ensures Undo30(ShiftXor30(z)) == z && ShiftXor30(Undo30(z)) == z
  {
    Undone30(z);
  }

  lemma Steps27(z: bv64)
    ensures Undo27(ShiftXor27(z)) == z && ShiftXor27(Undo27(z)) == z
  {
    Undone27(z);
  }

  lemma Steps31(z: bv64)
    ensures Undo31(ShiftXor31(z)) == z && ShiftXor31(Undo31(z)) == z
  {
    Undone31(z);
  }

  lemma StepsA(z: bv64)
    ensures DividesA(TimesA(z)) == z && TimesA(DividesA(z)) == z
  {
    UndoneA(z);
  }

  lemma StepsB(z: bv64)
    ensures DividesB(TimesB(z)) == z && TimesB(DividesB(z)) == z
  {
    UndoneB(z);
  }

  lemma MixUndone(z: bv64)
    ensures Unmix64(Mix64(z)) == z
  {
    Steps30(z);
    StepsA(ShiftXor30(z));
    Steps27(TimesA(ShiftXor30(z)));
    StepsB(ShiftXor27(TimesA(ShiftXor30(z))));
    Steps31(TimesB(ShiftXor27(TimesA(ShiftXor30(z)))));
  }

  lemma UnmixUndone(y: bv64)
    ensures Mix64(Unmix64(y)) == y
  {
    Steps31(y);
    StepsB(Undo31(y));
    Steps27(DividesB(Undo31(y)));
    StepsA(Undo27(DividesB(Undo31(y))));
    Steps30(DividesA(Undo27(DividesB(Undo31(y)))));
  }

  lemma MixInjective(a: bv64, b: bv64)
    requires Mix64(a) == Mix64(b)
    ensures a == b
  {
    MixUndone(a);
    MixUndone(b);
  }

  function Seed(session: bv64, seqNo: bv64): bv64
  {
    Mix64(Mix64(session) ^ seqNo)
  }

  lemma XorCancels(a: bv64, b: bv64, k: bv64)
    ensures k ^ a == k ^ b ==> a == b
    ensures a ^ k == b ^ k ==> a == b
  {
    assert k ^ (k ^ a) == a && k ^ (k ^ b) == b;
  }

  lemma SeedArgument(session: bv64, session': bv64, seqNo: bv64, seqNo': bv64)
    requires Seed(session, seqNo) == Seed(session', seqNo')
    ensures Mix64(session) ^ seqNo == Mix64(session') ^ seqNo'
  {
    MixInjective(Mix64(session) ^ seqNo, Mix64(session') ^ seqNo');
  }

  lemma XorPair(m: bv64, m': bv64, q: bv64, q': bv64)
    requires m ^ q == m' ^ q'
    ensures m == m' <==> q == q'
  {
    XorCancels(q, q', m);
    XorCancels(m, m', q);
  }

  lemma MixSame(a: bv64, b: bv64)
    ensures Mix64(a) == Mix64(b) <==> a == b
  {
    if Mix64(a) == Mix64(b) { MixInjective(a, b); }
  }

  /** Two frames of one session, or one frame number of two sessions, never share a seed. */
  lemma SeedsDistinct(session: bv64, session': bv64, seqNo: bv64, seqNo': bv64)
    requires Seed(session, seqNo) == Seed(session', seqNo')
    ensures session == session' <==> seqNo == seqNo'
  {
    SeedArgument(session, session', seqNo, seqNo');
    SeedsFrom(session, session', seqNo, seqNo');
  }

  lemma SeedsFrom(session: bv64, session': bv64, seqNo: bv64, seqNo': bv64)
    requires Mix64(session) ^ seqNo == Mix64(session') ^ seqNo'
    ensures session == session' <==> seqNo == seqNo'
  {
    XorPair(Mix64(session), Mix64(session'), seqNo, seqNo');
    MixSame(session, session');
  }

  // ------------------------------------------------------------------ one frame

  /** The splitmix64 state after `n` draws. */
  function Drawn(seed: bv64, n: nat): bv64
  {
    if n == 0 then seed else Drawn(seed, n - 1) + GAMMA
  }

  function Jitter(noise: bv64, lane: nat): (j: int)
    requires lane < 4
    ensures -NOISE_HALF <= j < NOISE_HALF
  {
    ((noise >> (16 * lane)) & 0x1FF) as int - NOISE_HALF
  }

  /** The noise of every sample of one frame: each 64-bit word serves four samples. */
  function NoiseOf(words: nat -> bv64): (js: seq<int>)
    ensures |js| == SAMPLES_PER_FRAME
    ensures forall i :: 0 <= i < |js| ==> -NOISE_HALF <= js[i] < NOISE_HALF
  {
    seq(SAMPLES_PER_FRAME, i requires 0 <= i < SAMPLES_PER_FRAME => NoiseAt(words, i))
  }

  function NoiseAt(words: nat -> bv64, i: nat): (j: int)
    ensures -NOISE_HALF <= j < NOISE_HALF
  {
    Jitter(words(i / 4), i % 4)
  }

  /** The words drawn from a seed, each mixed by `mix`. */
  function Words(mix: bv64 -> bv64, seed: bv64): nat -> bv64
  {
    (n: nat) => mix(Drawn(seed, n + 1))
  }

  function Noise(seed: bv64): seq<int>
  {
    NoiseOf(Words(Mix64, seed))
  }

  ghost predicate IsNoise(js: seq<int>)
  {
    |js| == SAMPLES_PER_FRAME && forall i :: 0 <= i < |js| ==> -NOISE_HALF <= js[i] < NOISE_HALF
  }

  /** The carrier at sample `i`, in closed form. */
  function Carrier(start: int, i: nat): int
  {
    (start + SAW_STEP * i) % SAW_PERIOD
  }

  function SampleAt(start: int, js: seq<int>, i: nat): int
    requires i < |js|
  {
    Carrier(start, i) - SAW_PERIOD / 2 + js[i]
  }

  function LowByte(v: int): Byte { Octet(v % 256) }

  function HighByte(v: int): Byte { Octet((v / 256) % 256) }

  function Frame(start: int, js: seq<int>): (b: Bytes)
    ensures |b| == 2 * |js|
  {
    seq(2 * |js|, i requires 0 <= i < 2 * |js| =>
      if i % 2 == 0 then LowByte(SampleAt(start, js, i / 2)) else HighByte(SampleAt(start, js, i / 2)))
  }

  function Phase(seed: bv64): int { (seed as int) % SAW_PERIOD }

  /** The octets of frame `seqNo`, in closed form. */
  function FramePayload(session: bv64, seqNo: bv64): (b: Bytes)
    ensures |b| == FRAME_BYTES
  {
    var seed := Seed(session, seqNo);
    Frame(Phase(seed), Noise(seed))
  }

  lemma LittleEndian(v: int)
    requires -32768 <= v < 32768
    ensures Sample(LowByte(v), HighByte(v)).Value() == v
  {
    OctetValue(v % 256);
    OctetValue((v / 256) % 256);
  }

  /** The cast to 16 bits loses nothing: the octets decode to the samples, all within +-10256. */
  lemma PayloadDecodes(session: bv64, seqNo: bv64, i: nat)
    requires i < SAMPLES_PER_FRAME
    ensures
      var seed := Seed(session, seqNo);
      var v := SampleAt(Phase(seed), Noise(seed), i);
      && -10_256 <= v < 10_256
      && |Samples(FramePayload(session, seqNo))| == SAMPLES_PER_FRAME
      && Samples(FramePayload(session, seqNo))[i].Value() == v
  {
    var seed := Seed(session, seqNo);
    FrameDecodes(Phase(seed), Noise(seed), i);
  }

  lemma FrameDecodes(start: int, js: seq<int>, i: nat)
    requires IsNoise(js) && i < |js|
    ensures -10_256 <= SampleAt(start, js, i) < 10_256
    ensures Samples(Frame(start, js))[i].Value() == SampleAt(start, js, i)
  {
    LittleEndian(SampleAt(start, js, i));
  }

  /** `noise` is the draw behind samples 4 * chunk .. 4 * chunk + 3. */
  ghost predicate Serves(js: seq<int>, chunk: nat, noise: bv64)
    requires 4 * chunk + 3 < |js|
  {
    forall lane :: 0 <= lane < 4 ==> js[4 * chunk + lane] == Jitter(noise, lane)
  }

  /** The four samples of one noise word. */
  method FillChunk(out: array<Byte>, chunk: nat, noise: bv64, carrier: int, ghost start: int, ghost js: seq<int>)
    returns (next: int)
    requires out.Length == FRAME_BYTES == 2 * |js| && chunk < SAMPLES_PER_FRAME / 4
    requires Serves(js, chunk, noise)
    requires carrier == Carrier(start, 4 * chunk)
    requires out[..8 * chunk] == Frame(start, js)[..8 * chunk]
    modifies out
    ensures next == Carrier(start, 4 * (chunk + 1))
    ensures out[..8 * (chunk + 1)] == Frame(start, js)[..8 * (chunk + 1)]
  {
    next := carrier;
    for lane := 0 to 4
      invariant next == Carrier(start, 4 * chunk + lane)
      invariant out[..2 * (4 * chunk + lane)] == Frame(start, js)[..2 * (4 * chunk + lane)]
    {
      var value := next - SAW_PERIOD / 2 + Jitter(noise, lane);
      var n := 4 * chunk + lane;
      assert value == SampleAt(start, js, n);
      FrameAt(start, js, n);
      out[2 * n] := LowByte(value);
      out[2 * n + 1] := HighByte(value);
      assert out[..2 * n + 2] == out[..2 * n] + [LowByte(value), HighByte(value)];
      CarrierNext(start, n);
      next := next + SAW_STEP;
      if next >= SAW_PERIOD {
        next := next - SAW_PERIOD;
      }
    }
  }

  lemma CarrierNext(start: int, n: nat)
    ensures
      var next := Carrier(start, n) + SAW_STEP;
      Carrier(start, n + 1) == if next >= SAW_PERIOD then next - SAW_PERIOD else next
  {
  }

  lemma FrameAt(start: int, js: seq<int>, n: nat)
    requires n < |js|
    ensures Frame(start, js)[..2 * n + 2] ==
              Frame(start, js)[..2 * n] + [LowByte(SampleAt(start, js, n)), HighByte(SampleAt(start, js, n))]
  {
    assert (2 * n) / 2 == n && (2 * n + 1) / 2 == n;
  }

  lemma WordAt(mix: bv64 -> bv64, seed: bv64, n: nat, drawn: bv64)
    requires drawn == Drawn(seed, n + 1)
    ensures Words(mix, seed)(n) == mix(drawn)
  {
  }

  lemma NoiseServes(words: nat -> bv64, chunk: nat, word: bv64)
    requires chunk < SAMPLES_PER_FRAME / 4 && word == words(chunk)
    ensures Serves(NoiseOf(words), chunk, word)
  {
    forall lane | 0 <= lane < 4
      ensures NoiseOf(words)[4 * chunk + lane] == Jitter(word, lane)
    {
      assert NoiseOf(words)[4 * chunk + lane] == NoiseAt(words, 4 * chunk + lane);
      assert (4 * chunk + lane) / 4 == chunk && (4 * chunk + lane) % 4 == lane;
    }
  }

  /** One draw of the splitmix64 stream. */
  method Draw(state: bv64, ghost seed: bv64, ghost chunk: nat) returns (next: bv64, noise: bv64)
    requires chunk < SAMPLES_PER_FRAME / 4 && state == Drawn(seed, chunk)
    ensures next == Drawn(seed, chunk + 1) && Serves(Noise(seed), chunk, noise)
  {
    next := state + GAMMA;
    noise := Mix64(next);
    WordAt(Mix64, seed, chunk, next);
    NoiseServes(Words(Mix64, seed), chunk, noise);
  }

  /** The loop of `frame_payload`: steps the generator and the carrier through the buffer. */
  method GenerateFrom(seed: bv64) returns (payload: Bytes)
    ensures payload == Frame(Phase(seed), Noise(seed))
  {
    var out := new Byte[FRAME_BYTES];
    var state := seed;
    ghost var start, js := Phase(seed), Noise(seed);
    var carrier := (state as int) % SAW_PERIOD;
    for chunk := 0 to FRAME_BYTES / 8
      invariant state == Drawn(seed, chunk)
      invariant carrier == Carrier(start, 4 * chunk)
      invariant out[..8 * chunk] == Frame(start, js)[..8 * chunk]
    {
      var noise;
      state, noise := Draw(state, seed, chunk);
      carrier := FillChunk(out, chunk, noise, carrier, start, js);
    }
    payload := out[..];
    assert payload == out[..8 * (FRAME_BYTES / 8)];
  }

  /** `frame_payload`. */
  method GenerateFrame(session: bv64, seqNo: bv64) returns (payload: Bytes)
    ensures payload == FramePayload(session, seqNo)
  {
    payload := GenerateFrom(Mix64(Mix64(session) ^ seqNo));
  }
}
