/** The gateway and the load generator's checks together. */
module EndToEnd {
  import opened Octets
  import opened Stub
  import opened Http
  import opened Ranges
  import opened Inference
  import opened Session
  import opened WsLoop
  import opened Gateway
  import opened GatewayProof
  import opened GatewayTheorems
  import opened TailBound
  import opened Generator
  import opened Verify

  /** The frames that arrived on `c` are the first frames session `session` sent. */
  ghost predicate SentBy(c: Conn, session: bv64)
  {
    forall j :: 0 <= j < |c.received| ==> c.received[j] == SentFrame(session, j + 1)
  }

  lemma AudioIsExpected(c: Conn, session: bv64, r: Range)
    requires SentBy(c, session) && WellFormed(r) && r.newest <= |c.received|
    ensures Audio(c, r) == ExpectedAudio(session, r)
  {
    var n := r.newest + 1 - r.oldest;
    assert c.received[r.oldest - 1..r.newest] == SentFrames(session, r.oldest, n);
  }

  /**
   Every run of the gateway is accepted. Whatever prefix of a connection's
   messages the client has seen, its continuity tracker has reported nothing and
   stands at a frame the client has sent; and every partial among them, of a range
   within the verifier's limit, passes the recomputation of its values.
   */
  lemma GatewayIsAccepted(world: World, poolSize: nat, ss: seq<State>, es: seq<Event>, i: nat,
                          o: nat, c: Conn, session: bv64, seen: nat)
    requires IsRun(world, poolSize, ss, es) && i < |ss| && IsConn(ss[i], o, c)
    requires GoodPeer(world.peer) && SentBy(c, session) && seen <= |c.sent|
    ensures AllAccepted(RangesOf(c.sent)[..seen])
    ensures Tracker(RangesOf(c.sent)[..seen]) <= |c.received|
    ensures forall k :: 0 <= k < seen && c.sent[k].Partial?
                        && c.sent[k].range.newest + 1 - c.sent[k].range.oldest <= MAX_VERIFY_FRAMES ==>
              Mismatches(session, c.sent[k], Expected(world.cfg.passes, world.cfg.modelDelayMs)) == []
  {
    EveryConn(world, poolSize, ss, es, i, o, c);
    RangesAccepted(c, seen);
    forall k | 0 <= k < seen && c.sent[k].Partial?
               && c.sent[k].range.newest + 1 - c.sent[k].range.oldest <= MAX_VERIFY_FRAMES
      ensures Mismatches(session, c.sent[k], Expected(world.cfg.passes, world.cfg.modelDelayMs)) == []
    {
      PartialPasses(world, c, session, c.sent[k]);
    }
  }

  /**
   On an open connection of a punctual run every partial passes: ranges are so short
   that the verifier's limit never matters.
   */
  lemma PunctualGatewayIsAccepted(world: World, poolSize: nat, ss: seq<State>, es: seq<Event>, i: nat,
                                  o: nat, session: bv64, late: nat, net: nat, sents: seq<int>, k: nat)
    requires IsRun(world, poolSize, ss, es) && i < |ss| && IsOpen(ss[i], o) && world.cfg.flushInterval >= 1
    requires GoodPeer(world.peer) && SentBy(ss[i].ws.conns[o], session)
    requires Punctual(late, ss, es, o) && Arriving(ss, es, o, sents, net)
    requires Span(world.cfg, late, net) <= FRAME_INTERVAL_MS * (MAX_VERIFY_FRAMES - 1)
    requires k < |ss[i].ws.conns[o].sent| && ss[i].ws.conns[o].sent[k].Partial?
    ensures Mismatches(session, ss[i].ws.conns[o].sent[k], Expected(world.cfg.passes, world.cfg.modelDelayMs)) == []
  {
    var c := ss[i].ws.conns[o];
    EveryConn(world, poolSize, ss, es, i, o, c);
    var _ := UnansweredFrameAge(world, poolSize, ss, es, late, net, sents, o, i);
    AnsweredIsFlushed(c, k);
    PartialPasses(world, c, session, c.sent[k]);
  }

  lemma AnsweredIsFlushed(c: Conn, k: nat)
    requires ConnOk(c) && k < |c.sent|
    ensures k < |c.flushed| && c.sent[k].range == c.flushed[k]
    ensures c.sent[k].frames == c.sent[k].range.newest + 1 - c.sent[k].range.oldest
  {
    assert RangesOf(c.sent)[k] == c.sent[k].range;
  }

  lemma RangesAccepted(c: Conn, seen: nat)
    requires ConnOk(c) && seen <= |c.sent|
    ensures AllAccepted(RangesOf(c.sent)[..seen])
    ensures Tracker(RangesOf(c.sent)[..seen]) <= |c.received|
  {
    var rs := RangesOf(c.sent);
    assert rs == c.flushed[..|rs|];
    var m := TilesPrefix(c.flushed, FlushedTo(c), seen);
    assert rs[..seen] == c.flushed[..seen];
    AcceptedIffTiles(rs[..seen], m);
  }

  lemma PartialPasses(world: World, c: Conn, session: bv64, p: Response)
    requires p.Partial? && Truthful(world, c, p) && SentBy(c, session)
    requires p.frames == p.range.newest + 1 - p.range.oldest <= MAX_VERIFY_FRAMES
    ensures Mismatches(session, p, Expected(world.cfg.passes, world.cfg.modelDelayMs)) == []
  {
    AudioIsExpected(c, session, p.range);
    PassesIffHonest(session, p, Expected(world.cfg.passes, world.cfg.modelDelayMs));
  }

  // ------------------------------------------------------------- over the whole run

  /** The client's tracker, once it has heard everything, stands at the newest frame answered. */
  lemma TrackerIsReported(c: Conn)
    requires ConnOk(c)
    ensures Tracker(RangesOf(c.sent)) == TailBound.Reported(c)
  {
    var rs := RangesOf(c.sent);
    if c.pending.Some? { assert c.flushed[..|c.flushed| - 1] == rs; }
    AcceptedIffTiles(rs, TailBound.Reported(c));
  }

  lemma {:induction false} IdStays(world: World, poolSize: nat, ss: seq<State>, es: seq<Event>, o: nat, i: nat, j: nat)
    requires IsRun(world, poolSize, ss, es) && i <= j < |ss| && IsOpen(ss[i], o)
    ensures o < ss[j].ws.nextId
  {
    if i == j {
      RunInv(world, poolSize, ss, es, i);
    } else {
      IdStays(world, poolSize, ss, es, o, i, j - 1);
    }
  }

  lemma StepGrows(world: World, poolSize: nat, ss: seq<State>, es: seq<Event>, o: nat, j: nat)
    requires IsRun(world, poolSize, ss, es) && j < |es| && o < ss[j].ws.nextId && IsOpen(ss[j + 1], o)
    ensures IsOpen(ss[j], o) && ss[j].ws.conns[o].sent <= ss[j + 1].ws.conns[o].sent
  {
    var s, e := ss[j], es[j];
    OpenBefore(world, s, e, o);
    StepSeen(world, s, e, o);
  }

  /** A connection never takes back what it has sent. */
  lemma {:induction false} SentGrows(world: World, poolSize: nat, ss: seq<State>, es: seq<Event>,
                                     o: nat, i: nat, j: nat)
    requires IsRun(world, poolSize, ss, es) && i <= j < |ss| && IsOpen(ss[i], o) && IsOpen(ss[j], o)
    ensures ss[i].ws.conns[o].sent <= ss[j].ws.conns[o].sent
  {
    if i < j {
      IdStays(world, poolSize, ss, es, o, i, j - 1);
      StepGrows(world, poolSize, ss, es, o, j - 1);
      SentGrows(world, poolSize, ss, es, o, i, j - 1);
    }
  }
}
