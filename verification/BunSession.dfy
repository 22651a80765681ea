/**
 The Bun gateway's session (services/typescript-bun/src/session.ts:54-270) and the
 backlog cap it derives from its timeouts
 (services/typescript-bun/src/config.ts:29-49). Between two awaits the code runs
 alone, so a session is a value that whole handlers transform.
 */
module BunSession {
  import opened Octets
  import opened Ranges

  const FRAME_MS := 20
  const CLOSE_PROTOCOL_ERROR := 1002
  const CLOSE_UNSUPPORTED_DATA := 1003
  const CLOSE_TRY_AGAIN_LATER := 1013

  datatype Config = Config(flushInterval: nat, phaseJitter: nat, inferenceTimeout: nat)

  predicate ConfigOk(cfg: Config)
  {
    cfg.flushInterval >= 1 && cfg.inferenceTimeout >= 1
  }

  /** The longest a frame of a healthy session waits for a flush. */
  function LongestWait(cfg: Config): nat
  {
    var first, later := cfg.flushInterval + cfg.phaseJitter, cfg.inferenceTimeout + cfg.flushInterval;
    if first >= later then first else later
  }

  function MaxBufferedFrames(cfg: Config): nat
  {
    2 * ((LongestWait(cfg) + FRAME_MS - 1) / FRAME_MS)
  }

  /** When ticks at most `late` late cannot fill the buffer: the condition under which the cap is out of reach. */
  predicate CapOutOfReach(cfg: Config, late: nat)
  {
    LongestWait(cfg) + late < FRAME_MS * MaxBufferedFrames(cfg)
  }

  /** A text message is told apart only by whether it is a valid start message. */
  datatype Message = Text(isStart: bool) | Binary(bytes: Bytes)

  datatype Frame = Frame(seqNo: nat, payload: Bytes, receivedAt: int)

  datatype Batch = Batch(range: Range, body: Bytes, startedAt: int)

  /**
   The session's fields, and its history: the payloads accepted, the ranges
   flushed, and the ranges whose outcome was handed to the outbox.
   */
  datatype Stt = Stt(
    started: bool,
    closed: bool,
    code: Option<int>,
    seqNo: nat,
    buffer: seq<Frame>,
    nextDue: int,
    inflight: Option<Batch>,
    received: seq<Bytes>,
    flushed: seq<Range>,
    answered: seq<Range>)

  function New(): Stt
  {
    Stt(false, false, None, 0, [], 0, None, [], [], [])
  }

  function CloseWith(s: Stt, code: int): Stt
  {
    s.(closed := true, code := Some(code))
  }

  function HandleMessage(cfg: Config, s: Stt, m: Message, now: int, jitter: nat): Stt
  {
    if s.closed then s
    else if !s.started then
      if m.Text? && m.isStart then s.(started := true, nextDue := now + cfg.flushInterval + jitter)
      else CloseWith(s, CLOSE_PROTOCOL_ERROR)
    else
      match m
      case Text(_) => CloseWith(s, CLOSE_PROTOCOL_ERROR)
      case Binary(bytes) =>
        if |bytes| != FRAME_BYTES then CloseWith(s, CLOSE_UNSUPPORTED_DATA)
        else if |s.buffer| >= MaxBufferedFrames(cfg) then CloseWith(s, CLOSE_TRY_AGAIN_LATER)
        else s.(seqNo := s.seqNo + 1, buffer := s.buffer + [Frame(s.seqNo + 1, bytes, now)],
                received := s.received + [bytes])
  }

  function Payloads(fs: seq<Frame>): seq<Bytes>
  {
    seq(|fs|, i requires 0 <= i < |fs| => fs[i].payload)
  }

  function FlushDue(s: Stt, now: int): Stt
  {
    if s.inflight.Some? || s.buffer == [] || s.closed then s
    else
      var r := Range(s.buffer[0].seqNo, s.buffer[|s.buffer| - 1].seqNo);
      s.(buffer := [], inflight := Some(Batch(r, Concat(Payloads(s.buffer)), now)), flushed := s.flushed + [r])
  }

  /** The timer callback; the timer of a closed session is cleared. */
  function OnTick(cfg: Config, s: Stt, now: int): Stt
  {
    FlushDue(s.(nextDue := s.nextDue + cfg.flushInterval), now)
  }

  /** The request ended, well or badly, and the outbox took its message. */
  function Finish(s: Stt): Stt
    requires s.inflight.Some?
  {
    s.(inflight := None, answered := if s.closed then s.answered else s.answered + [s.inflight.value.range])
  }

  // ------------------------------------------------------------------- invariant

  function FlushedTo(s: Stt): int
  {
    s.seqNo - |s.buffer|
  }

  /** The buffer is the end of what was accepted. */
  predicate BufferOk(buffer: seq<Frame>, received: seq<Bytes>)
  {
    && |buffer| <= |received|
    && (forall i :: 0 <= i < |received| ==> |received[i]| == FRAME_BYTES)
    && (forall i :: 0 <= i < |buffer| ==>
          && buffer[i].seqNo == |received| - |buffer| + i + 1
          && buffer[i].payload == received[|received| - |buffer| + i])
  }

  /** The batch in flight is the last range flushed, with exactly its frames. */
  predicate BatchOk(b: Batch, received: seq<Bytes>, flushed: seq<Range>)
  {
    && WellFormed(b.range) && b.range.newest <= |received|
    && b.body == Concat(received[b.range.oldest - 1..b.range.newest])
    && flushed != [] && flushed[|flushed| - 1] == b.range
  }

  /** Every flushed range is answered once, in order, except the one in flight. */
  predicate AnsweredOk(closed: bool, waiting: bool, flushed: seq<Range>, answered: seq<Range>)
  {
    && answered <= flushed
    && (!closed ==> |answered| == if waiting then |flushed| - 1 else |flushed|)
  }

  predicate SttOk(cfg: Config, s: Stt)
  {
    && s.seqNo == |s.received| && |s.buffer| <= MaxBufferedFrames(cfg) && BufferOk(s.buffer, s.received)
    && FlushedTo(s) >= 0 && Tiles(s.flushed, FlushedTo(s))
    && (s.inflight.Some? ==> BatchOk(s.inflight.value, s.received, s.flushed))
    && AnsweredOk(s.closed, s.inflight.Some?, s.flushed, s.answered)
  }

  lemma BatchStays(b: Batch, received: seq<Bytes>, flushed: seq<Range>, p: Bytes)
    requires BatchOk(b, received, flushed)
    ensures BatchOk(b, received + [p], flushed)
  {
    assert (received + [p])[b.range.oldest - 1..b.range.newest] == received[b.range.oldest - 1..b.range.newest];
  }

  lemma BufferGrows(buffer: seq<Frame>, received: seq<Bytes>, f: Frame)
    requires BufferOk(buffer, received) && f.seqNo == |received| + 1 && |f.payload| == FRAME_BYTES
    ensures BufferOk(buffer + [f], received + [f.payload])
  {
  }

  lemma HandleMessageOk(cfg: Config, s: Stt, m: Message, now: int, jitter: nat)
    requires SttOk(cfg, s)
    ensures SttOk(cfg, HandleMessage(cfg, s, m, now, jitter))
  {
    var r := HandleMessage(cfg, s, m, now, jitter);
    if r.seqNo > s.seqNo {
      BufferGrows(s.buffer, s.received, Frame(s.seqNo + 1, m.bytes, now));
      if s.inflight.Some? { BatchStays(s.inflight.value, s.received, s.flushed, m.bytes); }
    }
  }

  lemma FlushDueOk(cfg: Config, s: Stt, now: int)
    requires SttOk(cfg, s)
    ensures SttOk(cfg, FlushDue(s, now))
  {
    var r := FlushDue(s, now);
    if !(s.inflight.Some? || s.buffer == [] || s.closed) {
      var b := r.inflight.value;
      TilesSnoc(s.flushed, FlushedTo(s), b.range);
      assert Payloads(s.buffer) == s.received[b.range.oldest - 1..b.range.newest];
    }
  }

  // --------------------------------------------------------------------- timed run

  /** `since` is when the buffer was last known to be empty, `last` when the last frame arrived. */
  datatype Timed = Timed(s: Stt, now: int, since: int, last: Option<int>)

  datatype Event = Wait(ms: nat) | Receive(m: Message, jitter: nat) | Tick | Done | Closed

  predicate IsFrame(m: Message)
  {
    m.Binary? && |m.bytes| == FRAME_BYTES
  }

  /**
   Time passes no due tick by more than `late` and no request's timeout; frames
   arrive at least 20 ms apart; the jitter drawn is at most the configured one.
   */
  predicate Allowed(cfg: Config, late: nat, t: Timed, e: Event)
  {
    match e
    case Wait(ms) =>
      && (t.s.started && !t.s.closed ==> t.now + ms <= t.s.nextDue + late)
      && (t.s.inflight.Some? ==> t.now + ms <= t.s.inflight.value.startedAt + cfg.inferenceTimeout)
    case Receive(m, jitter) =>
      && jitter <= cfg.phaseJitter
      && (IsFrame(m) && t.last.Some? ==> t.now >= t.last.value + FRAME_MS)
    case Tick => t.s.started && !t.s.closed && t.now >= t.s.nextDue
    case Done => t.s.inflight.Some?
    case Closed => true
  }

  function After(cfg: Config, t: Timed, e: Event): Timed
    requires e.Done? ==> t.s.inflight.Some?
  {
    match e
    case Wait(ms) => t.(now := t.now + ms)
    case Receive(m, jitter) =>
      t.(s := HandleMessage(cfg, t.s, m, t.now, jitter),
         since := if t.s.started then t.since else t.now,
         last := if t.s.started && IsFrame(m) then Some(t.now) else t.last)
    case Tick => t.(s := OnTick(cfg, t.s, t.now), since := if t.s.inflight.None? then t.now else t.since)
    case Done => t.(s := Finish(t.s))
    case Closed => t.(s := t.s.(closed := true))
  }

  predicate ClockOk(cfg: Config, late: nat, t: Timed)
  {
    t.s.started && !t.s.closed ==>
      && t.since <= t.now <= t.s.nextDue + late
      && (t.s.buffer != [] ==> t.last.Some? && t.last.value >= t.since + FRAME_MS * (|t.s.buffer| - 1))
      && match t.s.inflight
         case None => t.s.nextDue <= t.since + LongestWait(cfg)
         case Some(b) =>
           b.startedAt == t.since && t.now <= t.since + cfg.inferenceTimeout && t.s.nextDue <= t.now + cfg.flushInterval
  }

  predicate TimedOk(cfg: Config, late: nat, t: Timed)
  {
    && SttOk(cfg, t.s) && ClockOk(cfg, late, t)
    && (!t.s.started ==> t.s.buffer == [] && t.s.inflight.None?)
    && t.s.code != Some(CLOSE_TRY_AGAIN_LATER)
  }

  /** The frame that arrives finds fewer than the cap already waiting. */
  lemma RoomForFrame(cfg: Config, late: nat, t: Timed)
    requires ClockOk(cfg, late, t) && t.s.started && !t.s.closed && CapOutOfReach(cfg, late)
    requires t.last.Some? ==> t.now >= t.last.value + FRAME_MS
    ensures |t.s.buffer| < MaxBufferedFrames(cfg)
    ensures t.now >= t.since + FRAME_MS * |t.s.buffer|
  {
    assert t.now - t.since <= LongestWait(cfg) + late;
  }

  lemma ReceiveKept(cfg: Config, late: nat, t: Timed, m: Message, jitter: nat)
    requires ConfigOk(cfg) && CapOutOfReach(cfg, late) && TimedOk(cfg, late, t)
    requires Allowed(cfg, late, t, Receive(m, jitter))
    ensures TimedOk(cfg, late, After(cfg, t, Receive(m, jitter)))
  {
    HandleMessageOk(cfg, t.s, m, t.now, jitter);
    if t.s.started && !t.s.closed && IsFrame(m) {
      RoomForFrame(cfg, late, t);
    }
  }

  lemma TickClock(cfg: Config, late: nat, t: Timed)
    requires ConfigOk(cfg) && ClockOk(cfg, late, t) && Allowed(cfg, late, t, Tick)
    ensures ClockOk(cfg, late, After(cfg, t, Tick))
  {
  }

  /** Nothing but the next due time changes, then the flush. */
  lemma OnTickOk(cfg: Config, s: Stt, now: int)
    requires SttOk(cfg, s)
    ensures SttOk(cfg, OnTick(cfg, s, now))
  {
    var s1 := s.(nextDue := s.nextDue + cfg.flushInterval);
    assert SttOk(cfg, s1) by { RetimedOk(cfg, s, s1.nextDue); }
    assert OnTick(cfg, s, now) == FlushDue(s1, now);
    assert SttOk(cfg, FlushDue(s1, now)) by { FlushDueOk(cfg, s1, now); }
  }

  lemma RetimedOk(cfg: Config, s: Stt, due: int)
    requires SttOk(cfg, s)
    ensures SttOk(cfg, s.(nextDue := due))
  {
  }

  lemma TickKept(cfg: Config, late: nat, t: Timed)
    requires ConfigOk(cfg) && TimedOk(cfg, late, t) && Allowed(cfg, late, t, Tick)
    ensures TimedOk(cfg, late, After(cfg, t, Tick))
  {
    assert SttOk(cfg, OnTick(cfg, t.s, t.now)) by { OnTickOk(cfg, t.s, t.now); }
    assert ClockOk(cfg, late, After(cfg, t, Tick)) by { TickClock(cfg, late, t); }
  }

  lemma TimedKept(cfg: Config, late: nat, t: Timed, e: Event)
    requires ConfigOk(cfg) && CapOutOfReach(cfg, late) && TimedOk(cfg, late, t) && Allowed(cfg, late, t, e)
    ensures TimedOk(cfg, late, After(cfg, t, e))
  {
    match e
    case Wait(_) =>
    case Receive(m, jitter) => ReceiveKept(cfg, late, t, m, jitter);
    case Tick => TickKept(cfg, late, t);
    case Done =>
    case Closed =>
  }

  ghost predicate IsTimedRun(cfg: Config, late: nat, ts: seq<Timed>, es: seq<Event>)
  {
    && |ts| == |es| + 1 && ts[0] == Timed(New(), 0, 0, None)
    && forall i :: 0 <= i < |es| ==> Allowed(cfg, late, ts[i], es[i]) && ts[i + 1] == After(cfg, ts[i], es[i])
  }

  /**
   While the cap is out of reach it never fires for a session whose requests end
   within the timeout; and in every such run the answered ranges, the batch in
   flight and the buffer are the accepted frames, in order and without gap or
   overlap.
   */
  lemma {:induction false} CapNeverFires(cfg: Config, late: nat, ts: seq<Timed>, es: seq<Event>, i: nat)
    requires ConfigOk(cfg) && CapOutOfReach(cfg, late) && IsTimedRun(cfg, late, ts, es) && i < |ts|
    ensures ts[i].s.code != Some(CLOSE_TRY_AGAIN_LATER)
    ensures SttOk(cfg, ts[i].s) && ClockOk(cfg, late, ts[i]) && TimedOk(cfg, late, ts[i])
  {
    if i > 0 {
      CapNeverFires(cfg, late, ts, es, i - 1);
      TimedKept(cfg, late, ts[i - 1], es[i - 1]);
    }
  }

  // ----------------------------------------------------- runs that reach the cap

  /** A run and the state it ends in. */
  ghost predicate EndsIn(cfg: Config, late: nat, ts: seq<Timed>, es: seq<Event>, t: Timed)
  {
    IsTimedRun(cfg, late, ts, es) && ts[|es|] == t
  }

  lemma Extend(cfg: Config, late: nat, ts: seq<Timed>, es: seq<Event>, t: Timed, e: Event)
    returns (ts1: seq<Timed>, es1: seq<Event>, t1: Timed)
    requires EndsIn(cfg, late, ts, es, t) && Allowed(cfg, late, t, e)
    ensures t1 == After(cfg, t, e) && EndsIn(cfg, late, ts1, es1, t1)
  {
    t1 := After(cfg, t, e);
    ts1, es1 := ts + [t1], es + [e];
  }

  /** Open, started, `n` frames in the buffer, and the next frame may come at `at`. */
  predicate Filling(t: Timed, n: nat, at: int)
  {
    && t.s.started && !t.s.closed && |t.s.buffer| == n
    && t.now <= at && (t.last.Some? ==> t.last.value + FRAME_MS <= at)
  }

  predicate CapHit(t: Timed)
  {
    t.s.code == Some(CLOSE_TRY_AGAIN_LATER)
  }

  /** No request in flight and the next tick far enough off: frames come every 20 ms until the cap is hit. */
  lemma {:induction false} FillsUp(cfg: Config, late: nat, ts: seq<Timed>, es: seq<Event>, t: Timed,
                                   n: nat, at: int, p: Bytes)
    returns (ts1: seq<Timed>, es1: seq<Event>, t1: Timed)
    requires EndsIn(cfg, late, ts, es, t) && Filling(t, n, at) && t.s.inflight.None? && |p| == FRAME_BYTES
    requires n <= MaxBufferedFrames(cfg)
    requires at + FRAME_MS * (MaxBufferedFrames(cfg) - n) <= t.s.nextDue + late
    ensures EndsIn(cfg, late, ts1, es1, t1) && CapHit(t1)
    decreases MaxBufferedFrames(cfg) - n
  {
    ts1, es1, t1 := Extend(cfg, late, ts, es, t, Wait(at - t.now));
    ts1, es1, t1 := Extend(cfg, late, ts1, es1, t1, Receive(Binary(p), 0));
    if n < MaxBufferedFrames(cfg) {
      ts1, es1, t1 := FillsUp(cfg, late, ts1, es1, t1, n + 1, at + FRAME_MS, p);
    }
  }

  /** A frame that finds room. */
  lemma FrameComes(cfg: Config, late: nat, ts: seq<Timed>, es: seq<Event>, t: Timed, n: nat, p: Bytes)
    returns (ts1: seq<Timed>, es1: seq<Event>, t1: Timed)
    requires EndsIn(cfg, late, ts, es, t) && Filling(t, n, t.now) && |p| == FRAME_BYTES && n < MaxBufferedFrames(cfg)
    ensures EndsIn(cfg, late, ts1, es1, t1) && Filling(t1, n + 1, t.now + FRAME_MS)
    ensures t1.now == t.now && t1.since == t.since && t1.s.inflight == t.s.inflight && t1.s.nextDue == t.s.nextDue
  {
    ts1, es1, t1 := Extend(cfg, late, ts, es, t, Receive(Binary(p), 0));
  }

  /** `t` with another clock and another next tick. */
  function Later(t: Timed, now: int, due: int): Timed
  {
    t.(now := now, s := t.s.(nextDue := due))
  }

  /** Stepping by `f` from `due` reaches `end`, or has just passed it. */
  ghost predicate Reaches(due: int, end: int, f: nat)
    requires f >= 1
    decreases end - due
  {
    due == end || due == end + f || (due < end && Reaches(due + f, end, f))
  }

  lemma {:induction false} MultiplesReach(m: nat, last: nat, f: nat)
    requires f >= 1 && m <= last
    ensures Reaches(m * f, last * f, f)
    decreases last - m
  {
    if m < last {
      MultiplesReach(m + 1, last, f);
      assert (m + 1) * f == m * f + f <= last * f;
    }
  }

  /**
   Time passes while a request is in flight: the ticks that fall due are handled
   and change nothing.
   */
  lemma {:induction false} Elapses(cfg: Config, late: nat, ts: seq<Timed>, es: seq<Event>, t: Timed, to: int)
    returns (ts1: seq<Timed>, es1: seq<Event>, t1: Timed)
    requires ConfigOk(cfg) && EndsIn(cfg, late, ts, es, t)
    requires t.s.started && !t.s.closed && t.s.inflight.Some? && t.now <= to && t.now <= t.s.nextDue + late
    requires to <= t.s.inflight.value.startedAt + cfg.inferenceTimeout
    requires Reaches(t.s.nextDue, t.s.inflight.value.startedAt + cfg.inferenceTimeout, cfg.flushInterval)
    ensures EndsIn(cfg, late, ts1, es1, t1) && t1 == Later(t, to, t1.s.nextDue) && to < t1.s.nextDue
    ensures Reaches(t1.s.nextDue, t.s.inflight.value.startedAt + cfg.inferenceTimeout, cfg.flushInterval)
    decreases if t.s.nextDue <= to then to - t.s.nextDue + 1 else 0, to - t.now
  {
    ts1, es1, t1 := ts, es, t;
    if t.s.nextDue <= t.now {
      ts1, es1, t1 := Extend(cfg, late, ts, es, t, Tick);
      ts1, es1, t1 := Elapses(cfg, late, ts1, es1, t1, to);
    } else if t.s.nextDue <= to {
      ts1, es1, t1 := Extend(cfg, late, ts, es, t, Wait(t.s.nextDue - t.now));
      ts1, es1, t1 := Elapses(cfg, late, ts1, es1, t1, to);
    } else {
      ts1, es1, t1 := Extend(cfg, late, ts, es, t, Wait(to - t.now));
    }
  }

  /** A request in flight since `t.since` and a timeout that falls on a tick. */
  ghost predicate InFlight(cfg: Config, late: nat, t: Timed)
    requires ConfigOk(cfg)
  {
    && t.s.inflight.Some? && t.s.inflight.value.startedAt == t.since
    && t.now <= t.since + cfg.inferenceTimeout && t.now <= t.s.nextDue + late
    && Reaches(t.s.nextDue, t.since + cfg.inferenceTimeout, cfg.flushInterval)
  }

  /**
   With such a request frames come every 20 ms, the request ends with its timeout
   just after that tick, and frames go on until the cap is hit.
   */
  lemma {:induction false} FillsUpInFlight(cfg: Config, late: nat, ts: seq<Timed>, es: seq<Event>, t: Timed,
                                           n: nat, p: Bytes)
    returns (ts1: seq<Timed>, es1: seq<Event>, t1: Timed)
    requires ConfigOk(cfg) && !CapOutOfReach(cfg, late) && LongestWait(cfg) == cfg.inferenceTimeout + cfg.flushInterval
    requires EndsIn(cfg, late, ts, es, t) && |p| == FRAME_BYTES && InFlight(cfg, late, t)
    requires Filling(t, n, t.since + FRAME_MS * n) && FRAME_MS * (n - 1) <= cfg.inferenceTimeout
    ensures EndsIn(cfg, late, ts1, es1, t1) && CapHit(t1)
    decreases cfg.inferenceTimeout + FRAME_MS - FRAME_MS * n
  {
    var end, at := t.since + cfg.inferenceTimeout, t.since + FRAME_MS * n;
    if at <= end {
      ts1, es1, t1 := Elapses(cfg, late, ts, es, t, at);
      ts1, es1, t1 := FrameComes(cfg, late, ts1, es1, t1, n, p);
      ts1, es1, t1 := FillsUpInFlight(cfg, late, ts1, es1, t1, n + 1, p);
    } else {
      ts1, es1, t1 := Elapses(cfg, late, ts, es, t, end);
      assert t1.s.nextDue == end + cfg.flushInterval;
      ts1, es1, t1 := DoneThenFills(cfg, late, ts1, es1, t1, n, at, p);
    }
  }

  /** The request ends, with the next tick one interval off. */
  lemma DoneThenFills(cfg: Config, late: nat, ts: seq<Timed>, es: seq<Event>, t: Timed, n: nat, at: int, p: Bytes)
    returns (ts1: seq<Timed>, es1: seq<Event>, t1: Timed)
    requires EndsIn(cfg, late, ts, es, t) && Filling(t, n, at) && t.s.inflight.Some? && |p| == FRAME_BYTES
    requires n <= MaxBufferedFrames(cfg)
    requires at + FRAME_MS * (MaxBufferedFrames(cfg) - n) <= t.s.nextDue + late
    ensures EndsIn(cfg, late, ts1, es1, t1) && CapHit(t1)
  {
    ts1, es1, t1 := Extend(cfg, late, ts, es, t, Done);
    ts1, es1, t1 := FillsUp(cfg, late, ts1, es1, t1, n, at, p);
  }

  lemma Starts(cfg: Config, late: nat, jitter: nat) returns (ts: seq<Timed>, es: seq<Event>, t: Timed)
    requires jitter <= cfg.phaseJitter
    ensures EndsIn(cfg, late, ts, es, t)
    ensures t == Timed(New().(started := true, nextDue := cfg.flushInterval + jitter), 0, 0, None)
  {
    t := Timed(New(), 0, 0, None);
    ts, es := [t], [];
    ts, es, t := Extend(cfg, late, ts, es, t, Receive(Text(true), jitter));
  }

  /** A tick count whose multiple of `f` is at least `x`, and less than one interval more. */
  lemma RoundsUp(x: nat, f: nat) returns (k: nat)
    requires f >= 1
    ensures x <= k * f < x + f
  {
    k := (x + f - 1) / f;
    assert x + f - 1 == k * f + (x + f - 1) % f;
  }

  /** When to handle the first tick so that the timeout of the request it starts falls on a later one. */
  lemma LateTick(cfg: Config, late: nat) returns (s: nat)
    requires ConfigOk(cfg) && !CapOutOfReach(cfg, late)
    requires LongestWait(cfg) == cfg.inferenceTimeout + cfg.flushInterval
    ensures FRAME_MS <= s && cfg.flushInterval <= s <= cfg.flushInterval + late
    ensures Reaches(2 * cfg.flushInterval, s + cfg.inferenceTimeout, cfg.flushInterval)
  {
    var f, timeout := cfg.flushInterval, cfg.inferenceTimeout;
    var k := RoundsUp(if f >= FRAME_MS then timeout else timeout + FRAME_MS - f, f);
    s := f + k * f - timeout;
    assert (k + 1) * f == s + timeout;
    MultiplesReach(2, k + 1, f);
  }

  /** One frame, flushed by such a tick. */
  lemma FlushesLate(cfg: Config, late: nat, p: Bytes)
    returns (ts: seq<Timed>, es: seq<Event>, t: Timed)
    requires ConfigOk(cfg) && !CapOutOfReach(cfg, late) && |p| == FRAME_BYTES
    requires LongestWait(cfg) == cfg.inferenceTimeout + cfg.flushInterval
    ensures EndsIn(cfg, late, ts, es, t) && InFlight(cfg, late, t) && t.since == t.now && Filling(t, 0, t.now)
  {
    var s := LateTick(cfg, late);
    ts, es, t := Starts(cfg, late, 0);
    ts, es, t := FrameComes(cfg, late, ts, es, t, 0, p);
    ts, es, t := Extend(cfg, late, ts, es, t, Wait(s));
    ts, es, t := Extend(cfg, late, ts, es, t, Tick);
  }

  /** When the cap is within reach, some run hits it. */
  lemma CapIsHit(cfg: Config, late: nat, p: Bytes) returns (ts: seq<Timed>, es: seq<Event>, t: Timed)
    requires ConfigOk(cfg) && !CapOutOfReach(cfg, late) && |p| == FRAME_BYTES
    ensures EndsIn(cfg, late, ts, es, t) && CapHit(t)
  {
    if cfg.phaseJitter >= cfg.inferenceTimeout {
      ts, es, t := Starts(cfg, late, cfg.phaseJitter);
      ts, es, t := FillsUp(cfg, late, ts, es, t, 0, 0, p);
    } else {
      ts, es, t := FlushesLate(cfg, late, p);
      ts, es, t := FillsUpInFlight(cfg, late, ts, es, t, 0, p);
    }
  }

  ghost predicate SomeRunHitsCap(cfg: Config, late: nat)
  {
    exists ts, es, t :: EndsIn(cfg, late, ts, es, t) && CapHit(t)
  }

  /**
   The exact margin, for every configuration and every lateness: the session is
   closed with 1013 in some run exactly when the longest wait plus the lateness
   covers as many frame times as the cap has frames.
   */
  lemma CapFiresIff(cfg: Config, late: nat)
    requires ConfigOk(cfg)
    ensures SomeRunHitsCap(cfg, late) <==> !CapOutOfReach(cfg, late)
  {
    if CapOutOfReach(cfg, late) {
      forall ts, es, t | EndsIn(cfg, late, ts, es, t)
        ensures !CapHit(t)
      {
        CapNeverFires(cfg, late, ts, es, |es|);
      }
    } else {
      var p: Bytes := seq(FRAME_BYTES, _ => 0);
      var ts, es, t := CapIsHit(cfg, late, p);
    }
  }

  /**
   The comment on `maxBufferedFrames` grants a stall of another full longest wait.
   That holds exactly when the longest wait is not a whole number of frames; with
   the defaults it is one, and only shorter stalls are safe.
   */
  lemma FullStall(cfg: Config)
    requires ConfigOk(cfg)
    ensures SomeRunHitsCap(cfg, LongestWait(cfg)) <==> LongestWait(cfg) % FRAME_MS == 0
    ensures LongestWait(cfg) > 0 ==> !SomeRunHitsCap(cfg, LongestWait(cfg) - 1)
    ensures var defaults := Config(1000, 0, 2000);
            SomeRunHitsCap(defaults, 3000) && !SomeRunHitsCap(defaults, 2999)
  {
    var w := LongestWait(cfg);
    CapFiresIff(cfg, w);
    CapFiresIff(cfg, w - 1);
    CapFiresIff(Config(1000, 0, 2000), 3000);
    CapFiresIff(Config(1000, 0, 2000), 2999);
    WholeFrames(w);
  }

  lemma WholeFrames(w: nat)
    ensures w + w < FRAME_MS * (2 * ((w + FRAME_MS - 1) / FRAME_MS)) <==> w % FRAME_MS != 0
    ensures w + w - 1 < FRAME_MS * (2 * ((w + FRAME_MS - 1) / FRAME_MS))
  {
  }

  // ------------------------------------------------------------------ the object

  class SttSession {
    const cfg: Config
    const maxBufferedFrames: nat
    var started: bool
    var closed: bool
    var code: Option<int>
    var seqNo: nat
    var buffer: seq<Frame>
    var nextDue: int
    var inflight: Option<Batch>
    ghost var received: seq<Bytes>
    ghost var flushed: seq<Range>
    ghost var answered: seq<Range>

    ghost predicate Valid()
      reads this
    {
      maxBufferedFrames == MaxBufferedFrames(cfg)
    }

    ghost function View(): Stt
      reads this
    {
      Stt(started, closed, code, seqNo, buffer, nextDue, inflight, received, flushed, answered)
    }

    constructor (cfg: Config)
      ensures Valid() && this.cfg == cfg && View() == New()
    {
      this.cfg := cfg;
      maxBufferedFrames := MaxBufferedFrames(cfg);
      started, closed, code, seqNo, buffer, nextDue, inflight := false, false, None, 0, [], 0, None;
      received, flushed, answered := [], [], [];
    }

    method Receive(m: Message, now: int, jitter: nat)
      requires Valid()
      modifies this
      ensures Valid() && View() == HandleMessage(cfg, old(View()), m, now, jitter)
    {
      if closed {
        return;
      }
      if !started {
        if !(m.Text? && m.isStart) {
          closed, code := true, Some(CLOSE_PROTOCOL_ERROR);
          return;
        }
        started := true;
        nextDue := now + cfg.flushInterval + jitter;
        return;
      }
      if m.Text? {
        closed, code := true, Some(CLOSE_PROTOCOL_ERROR);
        return;
      }
      if |m.bytes| != FRAME_BYTES {
        closed, code := true, Some(CLOSE_UNSUPPORTED_DATA);
        return;
      }
      if |buffer| >= maxBufferedFrames {
        closed, code := true, Some(CLOSE_TRY_AGAIN_LATER);
        return;
      }
      seqNo := seqNo + 1;
      buffer := buffer + [Frame(seqNo, m.bytes, now)];
      received := received + [m.bytes];
    }

    /** `concatFrames`: the frames' payloads, copied one after the other. */
    static method ConcatFrames(fs: seq<Frame>) returns (body: Bytes)
      ensures body == Concat(Payloads(fs))
    {
      body := [];
      for i := 0 to |fs|
        invariant body == Concat(Payloads(fs)[..i])
      {
        assert Payloads(fs)[..i + 1] == Payloads(fs)[..i] + [fs[i].payload];
        ConcatSnoc(Payloads(fs)[..i], fs[i].payload);
        body := body + fs[i].payload;
      }
      assert Payloads(fs)[..|fs|] == Payloads(fs);
    }

    method TimerFired(now: int)
      requires Valid()
      modifies this
      ensures Valid() && View() == OnTick(cfg, old(View()), now)
    {
      nextDue := nextDue + cfg.flushInterval;
      if inflight.Some? || buffer == [] || closed {
        return;
      }
      var frames := buffer;
      buffer := [];
      var range := Range(frames[0].seqNo, frames[|frames| - 1].seqNo);
      var body := ConcatFrames(frames);
      inflight := Some(Batch(range, body, now));
      flushed := flushed + [range];
    }

    method RequestEnded()
      requires Valid() && inflight.Some?
      modifies this
      ensures Valid() && View() == Finish(old(View()))
    {
      if !closed {
        answered := answered + [inflight.value.range];
      }
      inflight := None;
    }
  }
}
