/**
 The connection as the mutable object it is (services/rust-sync/src/session.rs).
 Every handler is proved to do to the fields what the functions of Session say.
 */
module ConnectionObject {
  import opened Octets
  import opened Http
  import opened Ranges
  import opened Session

  /** The read loop: messages until WouldBlock, or until one closes the connection. */
  function ReadAll(c: Conn, ms: seq<Message>, at: int): (Conn, Outcome)
    decreases |ms|
  {
    if ms == [] then (c, Keep) else
    var (c1, o) := OnMessage(c, ms[0], at);
    if o.Close? then (c1, o) else ReadAll(c1, ms[1..], at)
  }

  class Connection {
    const id: nat
    var started: bool
    var pending: Option<InFlight>
    var pcm: Bytes
    var meta: seq<FrameMeta>
    var seqNo: nat
    var nextFlush: int
    ghost var received: seq<Bytes>
    ghost var flushed: seq<Range>
    var sent: seq<Response>

    ghost function View(): Conn
      reads this
    {
      Conn(started, pending, pcm, meta, seqNo, nextFlush, received, flushed, sent)
    }

    constructor (id: nat, cfg: Config, now: int, phase: nat)
      ensures this.id == id && View() == NewConn(cfg, now, phase)
    {
      this.id := id;
      started, pending, pcm, meta, seqNo := false, None, [], [], 0;
      nextFlush := now + cfg.flushInterval + phase;
      received, flushed, sent := [], [], [];
    }

    method GetDeadline() returns (d: int)
      ensures d == Deadline(View())
    {
      if pending.Some? && pending.value.started + INFERENCE_TIMEOUT <= nextFlush {
        d := pending.value.started + INFERENCE_TIMEOUT;
      } else {
        d := nextFlush;
      }
    }

    method OnReadable(ms: seq<Message>, at: int) returns (o: Outcome)
      modifies this
      ensures View() == ReadAll(old(View()), ms, at).0 && o == ReadAll(old(View()), ms, at).1
    {
      ghost var start := View();
      var i := 0;
      while i < |ms|
        invariant 0 <= i <= |ms|
        invariant ReadAll(View(), ms[i..], at) == ReadAll(start, ms, at)
      {
        match ms[i] {
          case Text(isStart) =>
            if started || !isStart {
              return Close(Some(CLOSE_PROTOCOL));
            }
            started := true;
          case Binary(p) =>
            if !started {
              return Close(Some(CLOSE_PROTOCOL));
            }
            if |p| != FRAME_BYTES {
              return Close(Some(CLOSE_UNSUPPORTED));
            }
            seqNo := seqNo + 1;
            pcm := pcm + p;
            meta := meta + [FrameMeta(seqNo, at)];
            received := received + [p];
          case CloseRequest =>
            return Close(None);
          case Control =>
        }
        assert ms[i..][1..] == ms[i + 1..];
        i := i + 1;
      }
      o := Keep;
    }

    method OnTimer(cfg: Config, now: int) returns (tick: Tick)
      modifies this
      ensures View() == Session.OnTimer(cfg, old(View()), now).0 && tick == Session.OnTimer(cfg, old(View()), now).1
    {
      if pending.Some? && now >= pending.value.started + INFERENCE_TIMEOUT {
        return TickTimeout;
      }
      if now < nextFlush {
        return TickKeep;
      }
      var lateness := now - nextFlush;
      nextFlush := nextFlush + cfg.flushInterval;
      if pending.Some? || meta == [] {
        return TickKeep;
      }
      var first, last := meta[0], meta[|meta| - 1];
      tick := TickFlush(Batch(Range(first.seqNo, last.seqNo), first.at, last.at, |meta|, |pcm|, lateness));
    }

    method BeginPending(b: Batch, now: int)
      modifies this
      ensures View() == Session.BeginPending(old(View()), b, now)
    {
      pending := Some(InFlight(b, now));
      pcm, meta := [], [];
      flushed := flushed + [b.range];
    }

    method Deliver(cfg: Config, reply: Reply)
      modifies this
      ensures View() == Session.Deliver(cfg, old(View()), reply)
    {
      if pending.None? {
        return;
      }
      var b := pending.value.batch;
      pending := None;
      match reply
      case Ok(infer) =>
        sent := sent + [Partial(b.range, b.frames, infer, cfg.passes, cfg.modelDelayMs)];
      case Err(e) =>
        sent := sent + [Error(b.range, b.frames, b.audioBytes, e)];
    }

    method OnDone(cfg: Config, tag: nat, reply: Reply) returns (delivered: bool)
      modifies this
      ensures View() == Session.OnDone(cfg, old(View()), tag, reply)
      ensures delivered <==> old(View()) != View()
    {
      if pending.Some? && pending.value.batch.Tag() == tag {
        Deliver(cfg, reply);
        delivered := true;
      } else {
        delivered := false;
      }
    }
  }

  /**
   Protocol of the read loop: after any number of 640-octet frames, all of which
   are kept in order, a frame of another size closes with 1003 and a text message
   with 1002; before the start message either closes with 1002. Neither keeps
   anything of the offending message.
   */
  lemma {:induction false} ReadAllProtocol(c: Conn, ps: seq<Bytes>, bad: Message, at: int)
    requires forall i :: 0 <= i < |ps| ==> |ps[i]| == FRAME_BYTES
    requires bad.Binary? ==> |bad.payload| != FRAME_BYTES
    requires bad.Binary? || (bad.Text? && (c.started || !bad.isStart))
    ensures
      var ms := seq(|ps|, i requires 0 <= i < |ps| => Binary(ps[i])) + [bad];
      var (c1, o) := ReadAll(c, ms, at);
      if c.started
      then
        && c1.received == c.received + ps && c1.seqNo == c.seqNo + |ps| && c1.sent == c.sent
        && o == Close(Some(if bad.Binary? then CLOSE_UNSUPPORTED else CLOSE_PROTOCOL))
      else c1 == c && o == Close(Some(CLOSE_PROTOCOL))
    decreases |ps|
  {
    var ms := seq(|ps|, i requires 0 <= i < |ps| => Binary(ps[i])) + [bad];
    if ps != [] && c.started {
      var rest := ps[1..];
      var ms' := seq(|rest|, i requires 0 <= i < |rest| => Binary(rest[i])) + [bad];
      assert ms[1..] == ms';
      var c1 := OnMessage(c, ms[0], at).0;
      ReadAllProtocol(c1, rest, bad, at);
      assert c.received + ps == c1.received + rest;
    } else if ps == [] {
      assert c.received + ps == c.received;
    }
  }
}
