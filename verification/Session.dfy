/**
 One client connection of the two-thread gateway
 (services/rust-sync/src/session.rs): frames are buffered, flushed as one batch
 at a time, and every batch is answered by one message.

 `received`, `flushed` and `sent` are the connection's history: the PCM frames
 accepted, the ranges handed to inference, and the messages written to the
 WebSocket.
 */
module Session {
  import opened Octets
  import opened Stub
  import opened Http
  import opened Ranges

  const INFERENCE_TIMEOUT: int := 2000

  const CLOSE_PROTOCOL: nat := 1002
  const CLOSE_UNSUPPORTED: nat := 1003

  /** Times are integers (milliseconds). `Config::from_env` keeps the interval at least 1. */
  datatype Config = Config(passes: nat, modelDelayMs: nat, flushInterval: int)

  /** Client to gateway. `isStart` is whether the text decodes as a start message. */
  datatype Message = Text(isStart: bool) | Binary(payload: Bytes) | CloseRequest | Control

  /** Gateway to client. */
  datatype Response =
    | Partial(range: Range, frames: nat, infer: StubResult, passes: nat, modelDelayMs: nat)
    | Error(range: Range, frames: nat, audioBytes: nat, error: InferError)

  datatype Outcome = Keep | Close(code: Option<nat>)

  datatype FrameMeta = FrameMeta(seqNo: nat, at: int)

  datatype Batch = Batch(range: Range, oldestAt: int, newestAt: int, frames: nat, audioBytes: nat, lateness: int) {
    function Tag(): nat { range.oldest }
  }

  datatype InFlight = InFlight(batch: Batch, started: int)

  datatype Tick = TickKeep | TickFlush(batch: Batch) | TickTimeout

  datatype Conn = Conn(
    started: bool, pending: Option<InFlight>, pcm: Bytes, meta: seq<FrameMeta>, seqNo: nat, nextFlush: int,
    received: seq<Bytes>, flushed: seq<Range>, sent: seq<Response>)

  function NewConn(cfg: Config, now: int, phase: nat): Conn
  {
    Conn(false, None, [], [], 0, now + cfg.flushInterval + phase, [], [], [])
  }

  function Deadline(c: Conn): int
  {
    match c.pending
    case None => c.nextFlush
    case Some(p) =>
      if p.started + INFERENCE_TIMEOUT <= c.nextFlush then p.started + INFERENCE_TIMEOUT else c.nextFlush
  }

  /** One message of the read loop. */
  function OnMessage(c: Conn, m: Message, at: int): (Conn, Outcome)
  {
    match m
    case Text(isStart) =>
      if !c.started && isStart then (c.(started := true), Keep)
      else (c, Close(Some(CLOSE_PROTOCOL)))
    case Binary(p) =>
      if !c.started then (c, Close(Some(CLOSE_PROTOCOL)))
      else if |p| != FRAME_BYTES then (c, Close(Some(CLOSE_UNSUPPORTED)))
      else
        (c.(seqNo := c.seqNo + 1, pcm := c.pcm + p, meta := c.meta + [FrameMeta(c.seqNo + 1, at)],
            received := c.received + [p]), Keep)
    case CloseRequest => (c, Close(None))
    case Control => (c, Keep)
  }

  function TimedOut(c: Conn, now: int): bool
  {
    c.pending.Some? && now >= c.pending.value.started + INFERENCE_TIMEOUT
  }

  function OnTimer(cfg: Config, c: Conn, now: int): (Conn, Tick)
  {
    if TimedOut(c, now) then (c, TickTimeout)
    else if now < c.nextFlush then (c, TickKeep)
    else
      var c1 := c.(nextFlush := c.nextFlush + cfg.flushInterval);
      if c.pending.Some? || c.meta == [] then (c1, TickKeep)
      else
        var first, last := c.meta[0], c.meta[|c.meta| - 1];
        (c1, TickFlush(Batch(Range(first.seqNo, last.seqNo), first.at, last.at, |c.meta|, |c.pcm|, now - c.nextFlush)))
  }

  function BeginPending(c: Conn, b: Batch, now: int): Conn
  {
    c.(pending := Some(InFlight(b, now)), pcm := [], meta := [], flushed := c.flushed + [b.range])
  }

  function Answer(cfg: Config, b: Batch, reply: Reply): Response
  {
    match reply
    case Ok(infer) => Partial(b.range, b.frames, infer, cfg.passes, cfg.modelDelayMs)
    case Err(e) => Error(b.range, b.frames, b.audioBytes, e)
  }

  /** `Conn::deliver`: answer the pending batch, if there is one. */
  function Deliver(cfg: Config, c: Conn, reply: Reply): Conn
  {
    match c.pending
    case None => c
    case Some(p) => c.(pending := None, sent := c.sent + [Answer(cfg, p.batch, reply)])
  }

  /** `Conn::on_done`: a reply whose tag is not the pending batch's is dropped. */
  function OnDone(cfg: Config, c: Conn, tag: nat, reply: Reply): Conn
  {
    if c.pending.Some? && c.pending.value.batch.Tag() == tag then Deliver(cfg, c, reply) else c
  }

  // ---------------------------------------------------------------- invariant

  function RangesOf(sent: seq<Response>): (rs: seq<Range>)
    ensures |rs| == |sent|
  {
    seq(|sent|, i requires 0 <= i < |sent| => sent[i].range)
  }

  /** The newest frame handed to inference so far. */
  function FlushedTo(c: Conn): int { c.seqNo - |c.meta| }

  /** The frames `r` of the connection, concatenated in order. */
  function Audio(c: Conn, r: Range): Bytes
    requires 1 <= r.oldest <= r.newest + 1 && r.newest <= |c.received|
  {
    Concat(c.received[r.oldest - 1..r.newest])
  }

  /** The buffer holds exactly the frames after the last flush. */
  ghost predicate BufferOk(c: Conn)
  {
    && c.seqNo == |c.received|
    && (forall i :: 0 <= i < |c.received| ==> |c.received[i]| == FRAME_BYTES)
    && |c.meta| <= c.seqNo
    && (forall i :: 0 <= i < |c.meta| ==> c.meta[i].seqNo == FlushedTo(c) + 1 + i)
    && c.pcm == Concat(c.received[FlushedTo(c)..])
    && (!c.started ==> c.seqNo == 0)
  }

  ghost predicate BatchOk(b: Batch)
  {
    && WellFormed(b.range)
    && b.frames == b.range.newest - b.range.oldest + 1
    && b.audioBytes == b.frames * FRAME_BYTES
  }

  /** Answered ranges, then the pending one, tile 1..FlushedTo. */
  ghost predicate HistoryOk(c: Conn)
  {
    && FlushedTo(c) >= 0
    && Tiles(c.flushed, FlushedTo(c))
    && (match c.pending
        case None => c.flushed == RangesOf(c.sent)
        case Some(p) => BatchOk(p.batch) && c.flushed == RangesOf(c.sent) + [p.batch.range])
    && (forall i :: 0 <= i < |c.sent| ==>
          c.sent[i].frames == c.sent[i].range.newest + 1 - c.sent[i].range.oldest)
  }

  ghost predicate ConnOk(c: Conn) { BufferOk(c) && HistoryOk(c) }

  lemma NewConnOk(cfg: Config, now: int, phase: nat)
    ensures ConnOk(NewConn(cfg, now, phase))
  {
    assert RangesOf([]) == [];
  }

  /** One more frame in the buffer. */
  lemma BufferGrows(c: Conn, c1: Conn, p: Bytes, at: int)
    requires BufferOk(c) && FlushedTo(c) >= 0 && c.started && |p| == FRAME_BYTES
    requires c1 == c.(seqNo := c.seqNo + 1, pcm := c.pcm + p, meta := c.meta + [FrameMeta(c.seqNo + 1, at)],
                      received := c.received + [p])
    ensures BufferOk(c1) && FlushedTo(c1) == FlushedTo(c)
  {
    assert c1.received[FlushedTo(c)..] == c.received[FlushedTo(c)..] + [p];
    ConcatSnoc(c.received[FlushedTo(c)..], p);
  }

  lemma OnMessageOk(c: Conn, m: Message, at: int)
    requires ConnOk(c)
    ensures ConnOk(OnMessage(c, m, at).0)
    ensures FlushedTo(OnMessage(c, m, at).0) == FlushedTo(c)
    ensures OnMessage(c, m, at).0.pending == c.pending
    ensures c.received <= OnMessage(c, m, at).0.received
  {
    if m.Binary? && c.started && |m.payload| == FRAME_BYTES {
      BufferGrows(c, OnMessage(c, m, at).0, m.payload, at);
    }
  }

  /** The batch a flush takes: the whole buffer. */
  lemma WholeBuffer(c: Conn)
    requires BufferOk(c) && FlushedTo(c) >= 0 && c.meta != []
    ensures c.meta[0].seqNo == FlushedTo(c) + 1 && c.meta[|c.meta| - 1].seqNo == c.seqNo
    ensures |c.pcm| == |c.meta| * FRAME_BYTES
    ensures c.pcm == Audio(c, Range(FlushedTo(c) + 1, c.seqNo))
  {
    ConcatLength(c.received[FlushedTo(c)..], FRAME_BYTES);
    assert c.received[FlushedTo(c)..] == c.received[FlushedTo(c)..c.seqNo];
  }

  /** A timer tick changes only the next flush time; a flush takes the whole buffer as one well-formed batch. */
  lemma OnTimerOk(cfg: Config, c: Conn, now: int)
    requires ConnOk(c)
    ensures
      var (c1, tick) := OnTimer(cfg, c, now);
      && ConnOk(c1) && c1 == c.(nextFlush := c1.nextFlush)
      && (tick.TickTimeout? <==> TimedOut(c, now))
      && (tick.TickTimeout? ==> c1 == c)
      && (tick.TickFlush? ==>
            && c.pending.None? && now >= c.nextFlush
            && BatchOk(tick.batch)
            && tick.batch.range == Range(FlushedTo(c) + 1, c.seqNo)
            && c.pcm == Audio(c, tick.batch.range))
  {
    var (c1, tick) := OnTimer(cfg, c, now);
    assert c1 == c.(nextFlush := c1.nextFlush);
    assert ConnOk(c1) by { RetimedOk(c, c1.nextFlush); }
    if tick.TickFlush? {
      WholeBuffer(c);
    }
  }

  lemma RetimedOk(c: Conn, at: int)
    requires ConnOk(c)
    ensures ConnOk(c.(nextFlush := at))
  {
  }

  lemma BeginPendingOk(c: Conn, b: Batch, now: int)
    requires ConnOk(c) && c.pending.None? && BatchOk(b) && b.range == Range(FlushedTo(c) + 1, c.seqNo)
    ensures ConnOk(BeginPending(c, b, now))
    ensures FlushedTo(BeginPending(c, b, now)) == c.seqNo
  {
    TilesSnoc(c.flushed, FlushedTo(c), b.range);
    assert c.received[c.seqNo..] == [];
  }

  lemma DeliverOk(cfg: Config, c: Conn, reply: Reply)
    requires ConnOk(c)
    ensures ConnOk(Deliver(cfg, c, reply))
    ensures Deliver(cfg, c, reply).pending.None?
    ensures FlushedTo(Deliver(cfg, c, reply)) == FlushedTo(c)
  {
    var c1 := Deliver(cfg, c, reply);
    if c.pending.Some? {
      assert RangesOf(c1.sent) == RangesOf(c.sent) + [c.pending.value.batch.range];
    }
  }
}
