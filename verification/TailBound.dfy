/**
 The timing argument behind the tail tolerance
 (loadgen/rust/src/verify.rs:33-46): one connection of a gateway run, followed
 with a clock in milliseconds. Every timer is handled at most `late` after it is
 due; the client sends a frame every 20 ms or less often, and a frame reaches the
 gateway's read loop within `net`.
 */
module TailBound {
  import opened Octets
  import opened Stub
  import opened Http
  import opened Ranges
  import opened Session
  import opened WsLoop
  import opened Verify
  import Gateway

  /**
   `ats` is the loop's clock at the arrival of each frame, `lastTick` is when the
   last flush tick was handled (at first, when the connection was accepted), and
   every frame that arrived before `clear` has been answered.
   */
  datatype Timed = Timed(c: Conn, now: int, ats: seq<int>, clear: int, lastTick: int)

  datatype TimedEvent = Wait(ms: nat) | Read(m: Message, at: int) | Fire | Answered(reply: Reply)

  function Begin(cfg: Config, now: int, at: int, phase: nat): Timed
  {
    Timed(NewConn(cfg, at, phase), now, [], now, now)
  }

  predicate Allowed(late: nat, s: Timed, e: TimedEvent)
  {
    match e
    case Wait(ms) => s.now + ms <= Deadline(s.c) + late
    case Read(_, _) => true
    case Fire => s.now >= Deadline(s.c)
    case Answered(_) => s.c.pending.Some?
  }

  function After(cfg: Config, s: Timed, e: TimedEvent): Timed
  {
    match e
    case Wait(ms) => s.(now := s.now + ms)
    case Read(m, at) =>
      var c1 := OnMessage(s.c, m, at).0;
      s.(c := c1, ats := if |c1.received| > |s.c.received| then s.ats + [s.now] else s.ats)
    case Answered(reply) =>
      s.(c := Deliver(cfg, s.c, reply), clear := if s.c.pending.Some? then s.c.pending.value.started else s.clear)
    case Fire =>
      var s1 := s.(c := Handled(cfg, s.c, s.now));
      if TimedOut(s.c, s.now) then s1.(clear := s.c.pending.value.started)
      else if s.now < s.c.nextFlush then s1
      else if s.c.pending.None? && s.c.meta == [] then s1.(lastTick := s.now, clear := s.now)
      else s1.(lastTick := s.now)
  }

  /** The newest frame that has been answered. */
  function Reported(c: Conn): int
  {
    if c.pending.Some? then c.pending.value.batch.range.oldest - 1 else FlushedTo(c)
  }

  /** Frames not yet answered arrived after `clear`; those not yet flushed, after the pending batch was. */
  ghost predicate TimesOk(s: Timed)
  {
    && |s.ats| == s.c.seqNo && 0 <= Reported(s.c) <= s.c.seqNo && 0 <= FlushedTo(s.c)
    && (forall i :: 0 <= i < |s.ats| ==> s.ats[i] <= s.now)
    && (forall i :: Reported(s.c) <= i < |s.ats| ==> s.ats[i] >= s.clear)
    && (s.c.pending.Some? ==> forall i :: FlushedTo(s.c) <= i < |s.ats| ==> s.ats[i] >= s.c.pending.value.started)
  }

  ghost predicate FramesOk(s: Timed)
  {
    ConnOk(s.c) && TimesOk(s)
  }

  /** Where the clock may stand; the constants are the ones of the tail tolerance. */
  ghost predicate ClockOk(cfg: Config, late: nat, s: Timed)
  {
    var f, t := cfg.flushInterval, INFERENCE_TIMEOUT;
    && s.clear <= s.lastTick <= s.now <= s.c.nextFlush + late
    && (match s.c.pending
        case None => s.c.nextFlush <= s.clear + f + t + late
        case Some(p) =>
          && p.started <= s.lastTick && s.now <= p.started + t + late
          && p.started <= s.clear + f + t + 2 * late
          && s.clear <= p.started
          && s.c.nextFlush <= s.now + f)
  }

  lemma ReadTimes(cfg: Config, late: nat, s: Timed, m: Message, at: int)
    requires TimesOk(s) && ClockOk(cfg, late, s) && s.c.seqNo == |s.c.received|
    ensures TimesOk(After(cfg, s, Read(m, at)))
  {
    var c1 := OnMessage(s.c, m, at).0;
    assert Reported(c1) == Reported(s.c) && FlushedTo(c1) == FlushedTo(s.c);
  }

  lemma ReadKept(cfg: Config, late: nat, s: Timed, m: Message, at: int)
    requires FramesOk(s) && ClockOk(cfg, late, s)
    ensures FramesOk(After(cfg, s, Read(m, at)))
  {
    assert ConnOk(OnMessage(s.c, m, at).0) by { OnMessageOk(s.c, m, at); }
    ReadTimes(cfg, late, s, m, at);
  }

  /** Answering the pending batch: what is left arrived after that batch was flushed. */
  lemma DeliverKept(cfg: Config, s: Timed, reply: Reply)
    requires FramesOk(s) && s.c.pending.Some?
    ensures FramesOk(s.(c := Deliver(cfg, s.c, reply), clear := s.c.pending.value.started))
  {
    DeliverOk(cfg, s.c, reply);
  }

  lemma FireKept(cfg: Config, late: nat, s: Timed)
    requires FramesOk(s) && ClockOk(cfg, late, s)
    ensures FramesOk(After(cfg, s, Fire))
  {
    OnTimerOk(cfg, s.c, s.now);
    var (c1, tick) := OnTimer(cfg, s.c, s.now);
    var s1 := After(cfg, s, Fire);
    match tick
    case TickKeep =>
      assert s1 == s.(c := c1, clear := s1.clear, lastTick := s1.lastTick);
    case TickFlush(b) =>
      assert s1 == s.(c := BeginPending(c1, b, s.now), lastTick := s.now);
    case TickTimeout =>
      DeliverKept(cfg, s, Err(Timeout));
      assert s1 == s.(c := Deliver(cfg, s.c, Err(Timeout)), clear := s.c.pending.value.started);
  }

  lemma FramesKept(cfg: Config, late: nat, s: Timed, e: TimedEvent)
    requires FramesOk(s) && ClockOk(cfg, late, s) && Allowed(late, s, e)
    ensures FramesOk(After(cfg, s, e))
  {
    match e
    case Wait(_) =>
    case Read(m, at) => ReadKept(cfg, late, s, m, at);
    case Answered(reply) => DeliverKept(cfg, s, reply);
    case Fire => FireKept(cfg, late, s);
  }

  lemma ReadClock(cfg: Config, late: nat, s: Timed, m: Message, at: int)
    requires ClockOk(cfg, late, s)
    ensures ClockOk(cfg, late, After(cfg, s, Read(m, at)))
  {
    assert OnMessage(s.c, m, at).0.pending == s.c.pending && OnMessage(s.c, m, at).0.nextFlush == s.c.nextFlush;
  }

  lemma ClockKept(cfg: Config, late: nat, s: Timed, e: TimedEvent)
    requires cfg.flushInterval >= 1 && FramesOk(s) && ClockOk(cfg, late, s) && Allowed(late, s, e)
    ensures ClockOk(cfg, late, After(cfg, s, e))
  {
    match e
    case Wait(_) =>
    case Read(m, at) => ReadClock(cfg, late, s, m, at);
    case Answered(reply) =>
    case Fire =>
  }

  // ------------------------------------------------------------ a client's frames

  /** Sent at least 20 ms apart. */
  ghost predicate Spaced(sents: seq<int>)
  {
    forall i, j :: 0 <= i < j < |sents| ==> sents[j] - sents[i] >= FRAME_INTERVAL_MS * (j - i)
  }

  /** Each frame that arrived did so within `net` of its sending, by a loop whose clock is at most `late` behind. */
  ghost predicate Transit(s: Timed, sents: seq<int>, net: nat, late: nat)
  {
    && |s.ats| <= |sents|
    && forall j :: 0 <= j < |s.ats| ==> sents[j] - late <= s.ats[j] <= sents[j] + net
  }

  /** How long the frames of one flush can span. */
  function Span(cfg: Config, late: nat, net: nat): int
  {
    cfg.flushInterval + 2 * INFERENCE_TIMEOUT + 4 * late + net
  }

  ghost predicate ShortRanges(c: Conn, span: int)
  {
    forall k :: 0 <= k < |c.flushed| ==> FRAME_INTERVAL_MS * (c.flushed[k].newest - c.flushed[k].oldest) <= span
  }

  /** The frames one tick flushes were sent within a bounded span. */
  lemma FlushIsShort(cfg: Config, late: nat, net: nat, s: Timed, sents: seq<int>)
    requires FramesOk(s) && ClockOk(cfg, late, s) && Transit(s, sents, net, late) && Spaced(sents)
    requires s.c.pending.None? && s.c.meta != []
    ensures FRAME_INTERVAL_MS * (s.c.seqNo - (FlushedTo(s.c) + 1)) <= Span(cfg, late, net)
  {
    var first, last := FlushedTo(s.c), s.c.seqNo - 1;
    assert s.ats[first] >= s.clear && s.ats[last] <= s.now;
    assert first < last ==> sents[last] - sents[first] >= FRAME_INTERVAL_MS * (last - first);
  }

  lemma FireShort(cfg: Config, late: nat, net: nat, s: Timed, sents: seq<int>)
    requires FramesOk(s) && ClockOk(cfg, late, s) && Transit(s, sents, net, late) && Spaced(sents)
    requires ShortRanges(s.c, Span(cfg, late, net))
    ensures ShortRanges(Handled(cfg, s.c, s.now), Span(cfg, late, net))
  {
    OnTimerOk(cfg, s.c, s.now);
    var (c1, tick) := OnTimer(cfg, s.c, s.now);
    if tick.TickFlush? {
      FlushIsShort(cfg, late, net, s, sents);
      assert Handled(cfg, s.c, s.now).flushed == s.c.flushed + [tick.batch.range];
    }
  }

  // ------------------------------------------------------ following a gateway run

  /** Accepted and not yet closed; it may be on the list of connections to close. */
  predicate IsOpen(s: Gateway.State, o: nat) { o in s.ws.conns }

  /** While connection `o` is open the loop's clock never passes its deadline by more than `late`. */
  ghost predicate Punctual(late: nat, ss: seq<Gateway.State>, es: seq<Gateway.Event>, o: nat)
  {
    && (forall i :: 0 <= i < |ss| && IsOpen(ss[i], o) ==> ss[i].ws.now <= Deadline(ss[i].ws.conns[o]) + late)
    && (forall i :: 0 <= i < |es| && es[i].Accept? ==> es[i].delay <= late && es[i].phase <= INFERENCE_TIMEOUT)
    && (forall i :: 0 <= i < |es| && es[i].Receive? ==> es[i].delay <= late)
  }

  /**
   The client of connection `o` sends its frames at `sents`: no frame arrives before
   it is sent, and none is missing `net` after.
   */
  ghost predicate Arriving(ss: seq<Gateway.State>, es: seq<Gateway.Event>, o: nat, sents: seq<int>, net: nat)
  {
    && Spaced(sents)
    && (forall i :: 0 <= i < |ss| && IsOpen(ss[i], o) ==> |ss[i].ws.conns[o].received| <= |sents|)
    && (forall i, j :: 0 <= i < |ss| && IsOpen(ss[i], o) && 0 <= j < |sents| && sents[j] + net < ss[i].ws.now ==>
          j < |ss[i].ws.conns[o].received|)
    && (forall i :: 0 <= i < |es| && i < |ss| && es[i].Receive? && es[i].id == o && IsOpen(ss[i], o)
                    && |ss[i].ws.conns[o].received| < |sents| ==>
          sents[|ss[i].ws.conns[o].received|] <= ss[i].ws.now + es[i].delay)
  }

  /** `t` is connection `o` of state `s`, followed. */
  ghost predicate Follows(cfg: Config, late: nat, net: nat, sents: seq<int>, t: Timed, s: Gateway.State, o: nat)
  {
    && o in s.ws.conns && t.c == s.ws.conns[o] && t.now == s.ws.now
    && FramesOk(t) && ClockOk(cfg, late, t) && Transit(t, sents, net, late) && ShortRanges(t.c, Span(cfg, late, net))
  }

  /** How a step of the gateway looks from connection `o`: nothing happens, or one timed event does. */
  ghost predicate Seen(cfg: Config, w: Ws, w1: Ws, o: nat, e: Option<TimedEvent>)
    requires o in w.conns && o in w1.conns
  {
    match e
    case None => w1.conns[o] == w.conns[o] && w1.now == w.now
    case Some(Wait(ms)) => w1.conns[o] == w.conns[o] && w1.now == w.now + ms
    case Some(Read(m, at)) => w1.conns[o] == OnMessage(w.conns[o], m, at).0 && w1.now == w.now
    case Some(Fire) => w1.conns[o] == Handled(cfg, w.conns[o], w.now) && w1.now == w.now >= Deadline(w.conns[o])
    case Some(Answered(reply)) =>
      w.conns[o].pending.Some? && w1.conns[o] == Deliver(cfg, w.conns[o], reply) && w1.now == w.now
  }

  function EventFor(s: Gateway.State, o: nat, e: Gateway.Event): Option<TimedEvent>
    requires o in s.ws.conns
  {
    var c := s.ws.conns[o];
    match e
    case Elapse(ms) => Some(Wait(ms))
    case Receive(id, m, delay) => if id == o then Some(Read(m, s.ws.now + delay)) else None
    case Result(_) =>
      if s.dones != [] && s.dones[0].owner == o && c.pending.Some? && c.pending.value.batch.Tag() == s.dones[0].tag
      then Some(Answered(s.dones[0].reply)) else None
    case Tick(_) =>
      if s.ws.timers != [] && s.ws.timers[0].id == o && s.ws.now >= Deadline(c) then Some(Fire) else None
    case _ => None
  }

  lemma StepSeen(world: Gateway.World, s: Gateway.State, e: Gateway.Event, o: nat)
    requires Gateway.Enabled(world, s, e) && o in s.ws.conns && o in Gateway.Next(world, s, e).ws.conns
    requires e.Accept? && e.registered ==> o != s.ws.nextId
    ensures Seen(world.cfg, s.ws, Gateway.Next(world, s, e).ws, o, EventFor(s, o, e))
  {
  }

  lemma ShortKept(cfg: Config, late: nat, net: nat, sents: seq<int>, t: Timed, e: TimedEvent)
    requires FramesOk(t) && ClockOk(cfg, late, t) && Transit(t, sents, net, late) && Spaced(sents)
    requires ShortRanges(t.c, Span(cfg, late, net))
    ensures ShortRanges(After(cfg, t, e).c, Span(cfg, late, net))
  {
    if e.Fire? {
      FireShort(cfg, late, net, t, sents);
    } else {
      assert After(cfg, t, e).c.flushed == t.c.flushed;
    }
  }

  /** A frame that arrives now was sent at most `net` ago, and not after the read loop's own time. */
  lemma TransitKept(cfg: Config, late: nat, net: nat, sents: seq<int>, t: Timed, e: TimedEvent)
    requires Transit(t, sents, net, late) && FramesOk(t)
    requires e.Read? && |OnMessage(t.c, e.m, e.at).0.received| > |t.c.received| ==>
               |t.ats| < |sents| && t.now <= sents[|t.ats|] + net && sents[|t.ats|] <= t.now + late
    ensures Transit(After(cfg, t, e), sents, net, late)
  {
  }

  lemma StepFollowed(world: Gateway.World, late: nat, net: nat, sents: seq<int>, t: Timed,
                     s: Gateway.State, e: Gateway.Event, o: nat) returns (t1: Timed)
    requires world.cfg.flushInterval >= 1 && Spaced(sents) && Gateway.Enabled(world, s, e)
    requires Follows(world.cfg, late, net, sents, t, s, o)
    requires o in Gateway.Next(world, s, e).ws.conns && (e.Accept? && e.registered ==> o != s.ws.nextId)
    requires var w1 := Gateway.Next(world, s, e).ws; w1.now <= Deadline(w1.conns[o]) + late
    requires e.Receive? && e.id == o && |Gateway.Next(world, s, e).ws.conns[o].received| > |t.c.received| ==>
               && |t.c.received| < |sents| && s.ws.now <= sents[|t.c.received|] + net
               && sents[|t.c.received|] <= s.ws.now + late
    ensures Follows(world.cfg, late, net, sents, t1, Gateway.Next(world, s, e), o)
  {
    StepSeen(world, s, e, o);
    var te := EventFor(s, o, e);
    match te
    case None => t1 := t;
    case Some(ev) =>
      t1 := After(world.cfg, t, ev);
      FramesKept(world.cfg, late, t, ev);
      ClockKept(world.cfg, late, t, ev);
      ShortKept(world.cfg, late, net, sents, t, ev);
      TransitKept(world.cfg, late, net, sents, t, ev);
  }

  /** An open connection was open before, or has just been accepted. */
  lemma OpenBefore(world: Gateway.World, s: Gateway.State, e: Gateway.Event, o: nat)
    requires Gateway.Enabled(world, s, e) && IsOpen(Gateway.Next(world, s, e), o)
    ensures IsOpen(s, o) || (e.Accept? && e.registered && o == s.ws.nextId)
    ensures s.ws.nextId <= Gateway.Next(world, s, e).ws.nextId
  {
  }

  /** Every open connection of a punctual run can be followed. */
  lemma {:induction false} Followed(world: Gateway.World, poolSize: nat, ss: seq<Gateway.State>, es: seq<Gateway.Event>,
                                    late: nat, net: nat, sents: seq<int>, o: nat, i: nat) returns (t: Timed)
    requires Gateway.IsRun(world, poolSize, ss, es) && i < |ss| && IsOpen(ss[i], o) && world.cfg.flushInterval >= 1
    requires Punctual(late, ss, es, o) && Arriving(ss, es, o, sents, net)
    ensures Follows(world.cfg, late, net, sents, t, ss[i], o)
  {
    if i > 0 {
      var s, e := ss[i - 1], es[i - 1];
      OpenBefore(world, s, e, o);
      if e.Accept? && e.registered && o == s.ws.nextId {
        t := Begin(world.cfg, s.ws.now, s.ws.now + e.delay, e.phase);
      } else {
        t := Followed(world, poolSize, ss, es, late, net, sents, o, i - 1);
        t := StepFollowed(world, late, net, sents, t, s, e, o);
      }
    }
  }

  // -------------------------------------------------------------------- theorems

  /**
   In every punctual run of the gateway no unanswered frame of an open connection
   has been in it for longer than F + 2T + 3 late; and the frames of each flushed
   batch were sent within a bounded span.
   */
  lemma UnansweredFrameAge(world: Gateway.World, poolSize: nat, ss: seq<Gateway.State>, es: seq<Gateway.Event>,
                           late: nat, net: nat, sents: seq<int>, o: nat, i: nat) returns (t: Timed)
    requires Gateway.IsRun(world, poolSize, ss, es) && i < |ss| && IsOpen(ss[i], o) && world.cfg.flushInterval >= 1
    requires Punctual(late, ss, es, o) && Arriving(ss, es, o, sents, net)
    ensures Follows(world.cfg, late, net, sents, t, ss[i], o)
    ensures forall f :: Reported(ss[i].ws.conns[o]) <= f < |t.ats| ==>
              ss[i].ws.now - t.ats[f] <= world.cfg.flushInterval + 2 * INFERENCE_TIMEOUT + 3 * late
    ensures ShortRanges(ss[i].ws.conns[o], Span(world.cfg, late, net))
  {
    t := Followed(world, poolSize, ss, es, late, net, sents, o, i);
  }

  /**
   Hence the tail check never fires on a connection of the gateway while it is
   open: of the frames its client has sent by now, at most the last 300 are
   unreported, received or not, if three times the lateness and the time on the
   network stay within one flush interval.
   */
  lemma TailNeverMissing(world: Gateway.World, poolSize: nat, ss: seq<Gateway.State>, es: seq<Gateway.Event>,
                         late: nat, net: nat, sents: seq<int>, o: nat, i: nat, n: nat)
    requires Gateway.IsRun(world, poolSize, ss, es) && i < |ss| && IsOpen(ss[i], o)
    requires Punctual(late, ss, es, o) && Arriving(ss, es, o, sents, net)
    requires world.cfg.flushInterval == FLUSH_INTERVAL_MS && 3 * late + net < FLUSH_INTERVAL_MS
    requires n <= |sents| && (n > 0 ==> sents[n - 1] <= ss[i].ws.now)
    ensures Reported(ss[i].ws.conns[o]) >= 0 && CheckTail(n, Reported(ss[i].ws.conns[o])).None?
  {
    var t := Followed(world, poolSize, ss, es, late, net, sents, o, i);
    var r := Reported(t.c);
    if r < n {
      assert r < n - 1 ==> sents[n - 1] - sents[r] >= FRAME_INTERVAL_MS * (n - 1 - r);
    }
  }
}
