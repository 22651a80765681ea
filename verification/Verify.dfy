/**
 The load generator's correctness checks (loadgen/rust/src/verify.rs): range
 bookkeeping per session, the end-of-session tail check, and the recomputation of
 every value a partial reports.
 */
module Verify {
  import opened Octets
  import opened Stub
  import opened Ranges
  import opened Session
  import opened Generator
  import StubTheorems

  datatype Kind =
    | ContinuityGap | ContinuityOverlap | InvalidRange | UnsentFrame | RangeTooLarge | MissingTail
    | MalformedMessage | InvalidPartial
    | Frames | AudioBytes | CpuPasses | ModelDelayMs | Checksum | ZeroCrossings | SampleCount | Rms | TranscriptWord

  const FLUSH_INTERVAL_MS: nat := 1000
  const GATEWAY_INFERENCE_TIMEOUT_MS: nat := 2000
  const FRAME_INTERVAL_MS: nat := 20
  const TAIL_TOLERANCE_MS: nat := 2 * FLUSH_INTERVAL_MS + 2 * GATEWAY_INFERENCE_TIMEOUT_MS
  const TAIL_TOLERANCE_FRAMES: nat := TAIL_TOLERANCE_MS / FRAME_INTERVAL_MS
  const MAX_VERIFY_FRAMES: nat := 30_000
  const RMS_TOLERANCE: real := 0.000001

  // ----------------------------------------------------------------- continuity

  function Verdict(last: nat, r: Range): Option<Kind>
  {
    if r.oldest == 0 || r.newest < r.oldest then Some(InvalidRange)
    else if r.oldest > last + 1 then Some(ContinuityGap)
    else if r.oldest < last + 1 then Some(ContinuityOverlap)
    else None
  }

  function Advance(last: nat, r: Range): nat
  {
    if r.oldest == 0 || r.newest < r.oldest || r.newest <= last then last else r.newest
  }

  /** `Continuity`: the highest frame reported so far. */
  class Continuity {
    var lastNewest: nat

    constructor ()
      ensures lastNewest == 0
    {
      lastNewest := 0;
    }

    method Observe(oldest: nat, newest: nat) returns (m: Option<Kind>)
      modifies this
      ensures m == Verdict(old(lastNewest), Range(oldest, newest))
      ensures lastNewest == Advance(old(lastNewest), Range(oldest, newest))
    {
      if oldest == 0 || newest < oldest {
        return Some(InvalidRange);
      }
      var expected := lastNewest + 1;
      if oldest > expected {
        m := Some(ContinuityGap);
      } else if oldest < expected {
        m := Some(ContinuityOverlap);
      } else {
        m := None;
      }
      if newest > lastNewest {
        lastNewest := newest;
      }
    }
  }

  /** The tracker after observing `rs` in order. */
  function Tracker(rs: seq<Range>): nat
    decreases |rs|
  {
    if rs == [] then 0 else Advance(Tracker(rs[..|rs| - 1]), rs[|rs| - 1])
  }

  /** No range of `rs` is reported when they are observed in order. */
  predicate AllAccepted(rs: seq<Range>)
    decreases |rs|
  {
    rs == [] || (AllAccepted(rs[..|rs| - 1]) && Verdict(Tracker(rs[..|rs| - 1]), rs[|rs| - 1]).None?)
  }

  /** A whole list of ranges passes exactly when it tiles 1..n, and then the tracker is n. */
  lemma {:induction false} AcceptedIffTiles(rs: seq<Range>, n: nat)
    ensures (AllAccepted(rs) && Tracker(rs) == n) <==> Tiles(rs, n)
    decreases |rs|
  {
    if rs != [] {
      var init, r := rs[..|rs| - 1], rs[|rs| - 1];
      AcceptedIffTiles(init, Tracker(init));
      if WellFormed(r) { AcceptedIffTiles(init, r.oldest - 1); }
    }
  }

  /** The highest newest frame of a well-formed range. */
  function Highest(rs: seq<Range>): nat
    decreases |rs|
  {
    if rs == [] then 0
    else
      var h, r := Highest(rs[..|rs| - 1]), rs[|rs| - 1];
      if WellFormed(r) && r.newest > h then r.newest else h
  }

  /**
   Whatever came before, including malformed, stale and repeated ranges, the
   next range is accepted exactly when it starts right after the highest frame
   ever reported: one bad response is reported once.
   */
  lemma {:induction false} NextRangeAccepted(history: seq<Range>, r: Range)
    ensures Tracker(history) == Highest(history)
    ensures Verdict(Tracker(history), r).None? <==> WellFormed(r) && r.oldest == Highest(history) + 1
    decreases |history|
  {
    if history != [] { NextRangeAccepted(history[..|history| - 1], r); }
  }

  /** `check_tail`. */
  function CheckTail(sent: nat, reported: nat): Option<Kind>
  {
    var unreported := if sent >= reported then sent - reported else 0;
    if unreported > TAIL_TOLERANCE_FRAMES then Some(MissingTail) else None
  }

  /** How many of `rs` cover frame `f`. */
  function TimesCovered(rs: seq<Range>, f: nat): nat
    decreases |rs|
  {
    if rs == [] then 0
    else TimesCovered(rs[..|rs| - 1], f)
         + if rs[|rs| - 1].oldest <= f <= rs[|rs| - 1].newest then 1 else 0
  }

  lemma {:induction false} TilesCoverOnce(rs: seq<Range>, n: nat, f: nat)
    requires Tiles(rs, n) && f >= 1
    ensures TimesCovered(rs, f) == if f <= n then 1 else 0
    decreases |rs|
  {
    if rs != [] { TilesCoverOnce(rs[..|rs| - 1], rs[|rs| - 1].oldest - 1, f); }
  }

  /**
   Verifier soundness: with no continuity mismatch, no unsent frame and no tail
   mismatch, every frame sent was reported exactly once, except at most the last
   300, which were reported at most once.
   */
  lemma AcceptanceMeansCoverage(rs: seq<Range>, sent: nat, f: nat)
    requires AllAccepted(rs) && Tracker(rs) <= sent && CheckTail(sent, Tracker(rs)).None?
    requires 1 <= f <= sent
    ensures TimesCovered(rs, f) <= 1
    ensures f + 300 <= sent ==> TimesCovered(rs, f) == 1
  {
    AcceptedIffTiles(rs, Tracker(rs));
    TilesCoverOnce(rs, Tracker(rs), f);
  }

  // ---------------------------------------------------------------- recomputation

  /** A u64 frame counter. */
  function Counter(n: nat): bv64
  {
    if n == 0 then 0 else Counter(n - 1) + 1
  }

  /** The frames a session sends: frame i + 1 at index i. */
  function SentFrame(session: bv64, seqNo: nat): (b: Bytes)
    ensures |b| == FRAME_BYTES
  {
    FramePayload(session, Counter(seqNo))
  }

  function SentFrames(session: bv64, oldest: nat, count: nat): (fs: seq<Bytes>)
    ensures |fs| == count
    ensures forall i :: 0 <= i < count ==> fs[i] == SentFrame(session, oldest + i)
  {
    seq(count, i requires 0 <= i < count => SentFrame(session, oldest + i))
  }

  /** The audio of frames `r` of a session. */
  function ExpectedAudio(session: bv64, r: Range): Bytes
  {
    if r.newest < r.oldest then [] else Concat(SentFrames(session, r.oldest, r.newest + 1 - r.oldest))
  }

  /** `concat_payload`. */
  method ConcatPayload(session: bv64, oldest: nat, newest: nat) returns (out: Bytes)
    ensures out == ExpectedAudio(session, Range(oldest, newest))
  {
    out := [];
    if newest < oldest {
      return;
    }
    for n := oldest to newest + 1
      invariant out == Concat(SentFrames(session, oldest, n - oldest))
    {
      ghost var done := SentFrames(session, oldest, n - oldest);
      var frame := GenerateFrame(session, Counter(n));
      assert SentFrames(session, oldest, n + 1 - oldest) == done + [SentFrame(session, n)];
      ConcatSnoc(done, frame);
      out := out + frame;
    }
  }

  datatype Expected = Expected(passes: nat, modelDelayMs: nat)

  function When(b: bool, k: Kind): seq<Kind> { if b then [k] else [] }

  /** Configuration and count checks. */
  function HeaderMismatches(p: Response, e: Expected): seq<Kind>
    requires p.Partial?
  {
    var n := p.range.newest + 1 - p.range.oldest;
    When(p.frames != n, Frames) + When(p.infer.audioBytes != n * FRAME_BYTES, AudioBytes)
    + When(p.passes != e.passes, CpuPasses) + When(p.modelDelayMs != e.modelDelayMs, ModelDelayMs)
  }

  /**
   `rms_matches`, on the squares of the two values: they differ by at most the
   tolerance, or by at most that fraction of the expected one. See `RmsMatchesMeans`.
   */
  predicate RmsMatches(actual: Power, expected: Power)
  {
    var t, excess := RMS_TOLERANCE, actual + expected - RMS_TOLERANCE * RMS_TOLERANCE;
    || excess <= 0.0 || excess * excess <= 4.0 * actual * expected
    || (1.0 - t) * (1.0 - t) * expected <= actual <= (1.0 + t) * (1.0 + t) * expected
  }

  lemma SquaresGrow(x: real, y: real)
    requires 0.0 <= x < y
    ensures x * x < y * y
  {
    var d := y - x;
    assert y * y == x * x + 2.0 * (x * d) + d * d;
    assert x * d >= 0.0 && d * d > 0.0;
  }

  lemma SquaresOrder(x: real, y: real)
    requires x >= 0.0 && y >= 0.0
    ensures x <= y <==> x * x <= y * y
  {
    if x < y { SquaresGrow(x, y); } else if y < x { SquaresGrow(y, x); }
  }

  /** The comparison of squares is the comparison of the values themselves. */
  lemma RmsMatchesMeans(a: real, b: real)
    requires a >= 0.0 && b >= 0.0
    ensures a * a >= 0.0 && b * b >= 0.0
    ensures
      var diff := if a >= b then a - b else b - a;
      RmsMatches(a * a, b * b) <==> diff <= RMS_TOLERANCE || diff <= RMS_TOLERANCE * b
  {
    WithinAbsolute(a, b, RMS_TOLERANCE);
    WithinRelative(a, b, RMS_TOLERANCE);
  }

  lemma WithinAbsolute(a: real, b: real, t: real)
    requires a >= 0.0 && b >= 0.0 && t >= 0.0
    ensures
      var diff, excess := if a >= b then a - b else b - a, a * a + b * b - t * t;
      diff <= t <==> excess <= 0.0 || excess * excess <= 4.0 * (a * a) * (b * b)
  {
    var diff, excess := if a >= b then a - b else b - a, a * a + b * b - t * t;
    SquaresOrder(diff, t);
    assert diff * diff == a * a + b * b - 2.0 * (a * b);
    assert a * b >= 0.0;
    if excess > 0.0 { SquaresOrder(excess, 2.0 * (a * b)); }
    assert 2.0 * (a * b) * (2.0 * (a * b)) == 4.0 * (a * a) * (b * b);
  }

  lemma WithinRelative(a: real, b: real, t: real)
    requires a >= 0.0 && b >= 0.0 && 0.0 <= t <= 1.0
    ensures
      var diff := if a >= b then a - b else b - a;
      diff <= t * b <==> (1.0 - t) * (1.0 - t) * (b * b) <= a * a <= (1.0 + t) * (1.0 + t) * (b * b)
  {
    var lo, hi := (1.0 - t) * b, (1.0 + t) * b;
    assert lo == b - t * b && hi == b + t * b;
    SquaresOrder(lo, a);
    SquaresOrder(a, hi);
    assert lo * lo == (1.0 - t) * (1.0 - t) * (b * b);
    assert hi * hi == (1.0 + t) * (1.0 + t) * (b * b);
  }

  /** The same result, but for an rms within the tolerance. */
  predicate Agrees(got: StubResult, want: StubResult)
  {
    got == want.(power := got.power) && RmsMatches(got.power, want.power)
  }

  function ValueMismatches(got: StubResult, want: StubResult): seq<Kind>
  {
    Compare(got, want, RmsMatches(got.power, want.power))
  }

  function Compare(got: StubResult, want: StubResult, rms: bool): seq<Kind>
  {
    When(got.checksum != want.checksum, Checksum) + When(got.zeroCrossings != want.zeroCrossings, ZeroCrossings)
    + When(got.samples != want.samples, SampleCount) + When(!rms, Rms)
    + When(got.transcript != want.transcript, TranscriptWord)
  }

  lemma CompareIff(got: StubResult, want: StubResult, rms: bool)
    requires got.audioBytes == want.audioBytes
    ensures Compare(got, want, rms) == [] <==> got == want.(power := got.power) && rms
  {
  }

  /** `verify_partial`. */
  function Mismatches(session: bv64, p: Response, e: Expected): seq<Kind>
    requires p.Partial?
  {
    if !WellFormed(p.range) then [InvalidRange]
    else if p.range.newest + 1 - p.range.oldest > MAX_VERIFY_FRAMES then HeaderMismatches(p, e) + [RangeTooLarge]
    else HeaderMismatches(p, e) + ValueMismatches(p.infer, ComputeStub(ExpectedAudio(session, p.range), e.passes))
  }

  /** The comparisons of a partial with what is wanted all succeed. */
  lemma AllMatch(p: Response, e: Expected, want: StubResult)
    requires p.Partial? && want.audioBytes == (p.range.newest + 1 - p.range.oldest) * FRAME_BYTES
    ensures HeaderMismatches(p, e) + ValueMismatches(p.infer, want) == [] <==>
              && p.frames == p.range.newest + 1 - p.range.oldest
              && p.passes == e.passes && p.modelDelayMs == e.modelDelayMs && Agrees(p.infer, want)
  {
    if p.infer.audioBytes == want.audioBytes {
      CompareIff(p.infer, want, RmsMatches(p.infer.power, want.power));
    }
  }

  /**
   A partial passes if and only if its range is well-formed and not too large, its
   counts and configuration are right, and its values agree with the stub's answer
   to exactly the frames the session sent in that range.
   */
  lemma PassesIffHonest(session: bv64, p: Response, e: Expected)
    requires p.Partial?
    ensures
      var n := p.range.newest + 1 - p.range.oldest;
      Mismatches(session, p, e) == [] <==>
        && 1 <= p.range.oldest <= p.range.newest && n <= MAX_VERIFY_FRAMES
        && p.frames == n && p.passes == e.passes && p.modelDelayMs == e.modelDelayMs
        && Agrees(p.infer, ComputeStub(ExpectedAudio(session, p.range), e.passes))
  {
    if WellFormed(p.range) {
      var n := p.range.newest + 1 - p.range.oldest;
      ConcatLength(SentFrames(session, p.range.oldest, n), FRAME_BYTES);
      AllMatch(p, e, ComputeStub(ExpectedAudio(session, p.range), e.passes));
    }
  }

  /** `verify_partial`: pushes one mismatch per failed comparison. */
  method VerifyPartial(session: bv64, p: Response, e: Expected) returns (out: seq<Kind>)
    requires p.Partial?
    ensures out == Mismatches(session, p, e)
  {
    out := [];
    var oldest, newest := p.range.oldest, p.range.newest;
    if oldest == 0 || newest < oldest {
      out := out + [InvalidRange];
      return;
    }
    var n := newest - oldest + 1;
    if p.frames != n {
      out := out + [Frames];
    }
    if p.infer.audioBytes != n * FRAME_BYTES {
      out := out + [AudioBytes];
    }
    if p.passes != e.passes {
      out := out + [CpuPasses];
    }
    if p.modelDelayMs != e.modelDelayMs {
      out := out + [ModelDelayMs];
    }
    assert out == HeaderMismatches(p, e);
    if n > MAX_VERIFY_FRAMES {
      out := out + [RangeTooLarge];
      return;
    }
    var audio := ConcatPayload(session, oldest, newest);
    var want := StubTheorems.RunStub(audio, e.passes);
    var values := CompareValues(p.infer, want);
    out := out + values;
  }

  method CompareValues(got: StubResult, want: StubResult) returns (out: seq<Kind>)
    ensures out == ValueMismatches(got, want)
  {
    out := [];
    if got.checksum != want.checksum {
      out := out + [Checksum];
    }
    ghost var a := When(got.checksum != want.checksum, Checksum);
    assert out == a;
    if got.zeroCrossings != want.zeroCrossings {
      out := out + [ZeroCrossings];
    }
    ghost var b := a + When(got.zeroCrossings != want.zeroCrossings, ZeroCrossings);
    assert out == b;
    if got.samples != want.samples {
      out := out + [SampleCount];
    }
    ghost var c := b + When(got.samples != want.samples, SampleCount);
    assert out == c;
    if !RmsMatches(got.power, want.power) {
      out := out + [Rms];
    }
    assert out == c + When(!RmsMatches(got.power, want.power), Rms);
    if got.transcript != want.transcript {
      out := out + [TranscriptWord];
    }
  }
}
