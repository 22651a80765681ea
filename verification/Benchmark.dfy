/**
 The load generator against the gateway: session tasks that hear, in order, what
 connections of the rust-sync gateway send never count a correctness error, from
 the first frame until the last session has ended, so such a point never misses the
 correctness gate (scripts/bench/eval_slo.py:212-213).
 */
module Benchmark {
  import opened Octets
  import opened Stub
  import opened Ranges
  import opened Session
  import opened Verify
  import opened Ledger
  import opened Loadgen
  import opened EndToEnd
  import opened TailBound
  import opened GatewayTheorems
  import Inference
  import Gateway
  import StubTheorems

  /** A response as the load generator decodes it. */
  function Decoded(r: Response): Inbound
  {
    if r.Partial? then PartialText(r, true) else ErrorText(r.range)
  }

  predicate IsResponse(m: Inbound)
  {
    m.ErrorText? || m.PartialText?
  }

  type Checker = (nat, Response) -> seq<Kind>

  /** What connection `c` has sent passes every check of session `x`; `recheck` recomputes values. */
  ghost predicate Passes(c: Conn, x: nat, recheck: Checker)
  {
    && (forall k :: 0 <= k <= |c.sent| ==> AllAccepted(RangesOf(c.sent)[..k]))
    && (forall k :: 0 <= k < |c.sent| && c.sent[k].Partial? ==>
          recheck(x, c.sent[k]) == [] && ValidPartial(c.sent[k], true))
  }

  // ------------------------------------------------------------- the gateway passes

  /** A partial that passes recomputation is valid. */
  lemma HonestIsValid(x: nat, p: Response, e: Expected)
    requires p.Partial? && Mismatches(Counter(x), p, e) == [] && e.passes >= 1
    ensures ValidPartial(p, true)
  {
    PassesIffHonest(Counter(x), p, e);
    var n := p.range.newest + 1 - p.range.oldest;
    ConcatLength(SentFrames(Counter(x), p.range.oldest, n), FRAME_BYTES);
  }

  /** An open connection of a punctual gateway run passes every check of its client. */
  lemma GatewayPasses(world: Gateway.World, poolSize: nat, ss: seq<Gateway.State>, es: seq<Gateway.Event>, i: nat,
                      o: nat, x: nat, late: nat, net: nat, sents: seq<int>)
    requires Gateway.IsRun(world, poolSize, ss, es) && i < |ss| && IsOpen(ss[i], o)
    requires world.cfg.flushInterval >= 1 && world.cfg.passes >= 1
    requires Inference.GoodPeer(world.peer) && SentBy(ss[i].ws.conns[o], Counter(x))
    requires Punctual(late, ss, es, o) && Arriving(ss, es, o, sents, net)
    requires Span(world.cfg, late, net) <= FRAME_INTERVAL_MS * (MAX_VERIFY_FRAMES - 1)
    ensures Passes(ss[i].ws.conns[o], x, Recheck(Expected(world.cfg.passes, world.cfg.modelDelayMs)))
  {
    var c, e := ss[i].ws.conns[o], Expected(world.cfg.passes, world.cfg.modelDelayMs);
    forall k | 0 <= k <= |c.sent|
      ensures AllAccepted(RangesOf(c.sent)[..k])
    {
      GatewayIsAccepted(world, poolSize, ss, es, i, o, c, Counter(x), k);
    }
    forall k | 0 <= k < |c.sent| && c.sent[k].Partial?
      ensures Recheck(e)(x, c.sent[k]) == [] && ValidPartial(c.sent[k], true)
    {
      PunctualGatewayIsAccepted(world, poolSize, ss, es, i, o, Counter(x), late, net, sents, k);
      HonestIsValid(x, c.sent[k], e);
    }
  }

  // -------------------------------------------------------- a load generator run fed by it

  /** How many responses session `x` has heard in the first `i` events. */
  function Heard(es: seq<Loadgen.Event>, i: nat, x: nat): nat
    requires i <= |es|
  {
    if i == 0 then 0
    else Heard(es, i - 1, x) + if es[i - 1].Receive? && es[i - 1].session == x && IsResponse(es[i - 1].m) then 1 else 0
  }

  /**
   Each session `x` hears what `conns(x)` has sent, in order, besides pings and
   pongs; no response reports a frame before the client has sent it; and a session
   whose tail is checked has heard everything, with a tail within the tolerance.
   */
  ghost predicate FedBy(ss: seq<Loadgen.State>, es: seq<Loadgen.Event>, conns: nat -> Conn)
    requires |ss| == |es| + 1
  {
    forall i :: 0 <= i < |es| ==> StepFed(ss[i], es[i], conns, Heard(es, i, SessionOf(es[i])))
  }

  function SessionOf(e: Loadgen.Event): nat
  {
    match e
    case Receive(x, _, _) => x
    case SessionEnds(x, _) => x
    case _ => 0
  }

  ghost predicate StepFed(s: Loadgen.State, e: Loadgen.Event, conns: nat -> Conn, heard: nat)
  {
    match e
    case Receive(x, m, _) =>
      || m.Transport?
      || (&& heard < |conns(x).sent| && m == Decoded(conns(x).sent[heard])
          && x in s.sessions && conns(x).sent[heard].range.newest <= s.sessions[x].sent)
    case SessionEnds(x, inWindow) =>
      x in s.sessions &&
      (inWindow ==>
         heard == |conns(x).sent| && CheckTail(s.sessions[x].sent, Tracker(RangesOf(conns(x).sent))).None?)
    case _ => true
  }

  /** Every check on the message passes, recomputed or not. */
  ghost predicate Clean(cfg: Loadgen.Config, c: Context)
  {
    InlineFailures(c) == [] && AllFailures(cfg, c) == []
  }

  /** The tracker of each live session stands where the responses it has heard put it. */
  ghost predicate Tracks(s: Loadgen.State, es: seq<Loadgen.Event>, i: nat, conns: nat -> Conn)
    requires i <= |es|
  {
    forall x :: x in s.sessions ==>
      && Heard(es, i, x) <= |conns(x).sent|
      && s.sessions[x].lastNewest == Tracker(RangesOf(conns(x).sent)[..Heard(es, i, x)])
  }

  ghost predicate AllClean(cfg: Loadgen.Config, seen: seq<Context>)
  {
    forall j :: 0 <= j < |seen| ==> Clean(cfg, seen[j])
  }

  /** The next response of a connection that passes, met by the tracker it leads to. */
  lemma NextIsClean(cfg: Loadgen.Config, c: Conn, x: nat, k: nat, measured: bool, sent: nat)
    requires Passes(c, x, cfg.recheck) && k < |c.sent| && c.sent[k].range.newest <= sent
    ensures
      var last := Tracker(RangesOf(c.sent)[..k]);
      && Clean(cfg, Context(x, Decoded(c.sent[k]), measured, last, sent))
      && Advance(last, c.sent[k].range) == Tracker(RangesOf(c.sent)[..k + 1])
  {
    var rs := RangesOf(c.sent);
    assert rs[..k + 1][..k] == rs[..k] && rs[..k + 1][k] == c.sent[k].range;
    assert AllAccepted(rs[..k + 1]);
  }

  /** Only the session that hears a response moves its tracker. */
  lemma TracksOn(s: Loadgen.State, s1: Loadgen.State, es: seq<Loadgen.Event>, i: nat, conns: nat -> Conn)
    requires i < |es| && Tracks(s, es, i, conns) && s1.sessions.Keys <= s.sessions.Keys
    requires forall x :: x in s1.sessions && Heard(es, i + 1, x) == Heard(es, i, x) ==>
               s1.sessions[x].lastNewest == s.sessions[x].lastNewest
    requires forall x :: x in s1.sessions && Heard(es, i + 1, x) != Heard(es, i, x) ==>
               && Heard(es, i + 1, x) <= |conns(x).sent|
               && s1.sessions[x].lastNewest == Tracker(RangesOf(conns(x).sent)[..Heard(es, i + 1, x)])
    ensures Tracks(s1, es, i + 1, conns)
  {
  }

  lemma ReceiveSeen(cfg: Loadgen.Config, s: Loadgen.State, x: nat, m: Inbound, measured: bool, c: Conn, k: nat)
    requires x in s.sessions && AllClean(cfg, s.seen) && Passes(c, x, cfg.recheck)
    requires m.Transport? || (k < |c.sent| && m == Decoded(c.sent[k]) && c.sent[k].range.newest <= s.sessions[x].sent)
    requires k <= |c.sent| && s.sessions[x].lastNewest == Tracker(RangesOf(c.sent)[..k])
    ensures AllClean(cfg, OnInbound(cfg, s, x, m, measured).seen)
    ensures !m.Transport? ==> Observed(s.sessions[x], m).lastNewest == Tracker(RangesOf(c.sent)[..k + 1])
    ensures m.Transport? ==> Observed(s.sessions[x], m) == s.sessions[x]
  {
    if !m.Transport? { NextIsClean(cfg, c, x, k, measured, s.sessions[x].sent); }
  }

  lemma HeardNext(es: seq<Loadgen.Event>, i: nat)
    requires i < |es| && es[i].Receive?
    ensures forall x :: x != es[i].session ==> Heard(es, i + 1, x) == Heard(es, i, x)
    ensures Heard(es, i + 1, es[i].session) == Heard(es, i, es[i].session) + if IsResponse(es[i].m) then 1 else 0
  {
  }

  lemma ReceiveClean(cfg: Loadgen.Config, s: Loadgen.State, es: seq<Loadgen.Event>, i: nat, conns: nat -> Conn)
    requires i < |es| && es[i].Receive? && es[i].session in s.sessions && Tracks(s, es, i, conns)
    requires Passes(conns(es[i].session), es[i].session, cfg.recheck)
    requires AllClean(cfg, s.seen) && StepFed(s, es[i], conns, Heard(es, i, es[i].session))
    ensures
      var s1 := OnInbound(cfg, s, es[i].session, es[i].m, es[i].measured);
      Tracks(s1, es, i + 1, conns) && AllClean(cfg, s1.seen)
  {
    var x, m := es[i].session, es[i].m;
    ReceiveSeen(cfg, s, x, m, es[i].measured, conns(x), Heard(es, i, x));
    HeardNext(es, i);
    TracksOn(s, OnInbound(cfg, s, x, m, es[i].measured), es, i, conns);
  }

  /** Whatever else happens, no tracker moves and no message is seen. */
  lemma OtherClean(cfg: Loadgen.Config, s: Loadgen.State, es: seq<Loadgen.Event>, i: nat, conns: nat -> Conn)
    requires i < |es| && !es[i].Receive? && Loadgen.Enabled(s, es[i]) && Loadgen.Defined(s, es[i])
    requires Tracks(s, es, i, conns)
    ensures
      var s1 := Loadgen.Next(cfg, s, es[i]);
      Tracks(s1, es, i + 1, conns) && s1.seen == s.seen && s1.sessions.Keys <= s.sessions.Keys
  {
    TracksOn(s, Loadgen.Next(cfg, s, es[i]), es, i, conns);
  }

  /** A session that ends without a missing tail is not counted. */
  lemma TailsStay(cfg: Loadgen.Config, s: Loadgen.State, es: seq<Loadgen.Event>, i: nat, conns: nat -> Conn)
    requires i < |es| && Loadgen.Enabled(s, es[i]) && Loadgen.Defined(s, es[i]) && Tracks(s, es, i, conns)
    requires StepFed(s, es[i], conns, Heard(es, i, SessionOf(es[i])))
    ensures Loadgen.Next(cfg, s, es[i]).book.tails == s.book.tails
  {
    if es[i].SessionEnds? && es[i].inWindow {
      var rs := RangesOf(conns(es[i].session).sent);
      assert rs[..|rs|] == rs;
    }
  }

  /** Nothing was ever wrong: no message is flagged and no session counted. */
  lemma {:induction false} StaysClean(cfg: Loadgen.Config, ids: set<nat>, ss: seq<Loadgen.State>,
                                      es: seq<Loadgen.Event>, conns: nat -> Conn, i: nat)
    requires Loadgen.IsRun(cfg, ids, ss, es) && i < |ss|
    requires FedBy(ss, es, conns) && forall x :: x in ids ==> Passes(conns(x), x, cfg.recheck)
    ensures ss[i].sessions.Keys <= ids
    ensures Tracks(ss[i], es, i, conns) && AllClean(cfg, ss[i].seen) && ss[i].book.tails == {}
  {
    if i > 0 {
      var s, e, heard := ss[i - 1], es[i - 1], Heard(es, i - 1, SessionOf(es[i - 1]));
      StaysClean(cfg, ids, ss, es, conns, i - 1);
      assert StepFed(s, e, conns, heard);
      TailsStay(cfg, s, es, i - 1, conns);
      if e.Receive? {
        ReceiveClean(cfg, s, es, i - 1, conns);
      } else {
        OtherClean(cfg, s, es, i - 1, conns);
      }
    }
  }

  /**
   Fed by connections that pass, whatever the interleaving with the verifier thread
   and however full its queue, the load generator never counts a correctness error.
   */
  lemma NeverAnError(cfg: Loadgen.Config, ids: set<nat>, ss: seq<Loadgen.State>,
                     es: seq<Loadgen.Event>, conns: nat -> Conn, n: nat)
    requires Loadgen.IsRun(cfg, ids, ss, es) && n < |ss|
    requires FedBy(ss, es, conns) && forall x :: x in ids ==> Passes(conns(x), x, cfg.recheck)
    ensures ss[n].book.errors == 0
  {
    StaysClean(cfg, ids, ss, es, conns, n);
    Loadgen.RunInv(cfg, ids, ss, es, n);
  }

  // ------------------------------------------------------- the gateway and its clients

  /**
   A run of the gateway and the clients it serves. Session `x` is connection
   `owner(x)`; it sends its frames at `sents(x)`; and `last(x)` is the state by which
   the gateway has sent all that the session ever hears.
   */
  datatype Served = Served(
    world: Gateway.World, poolSize: nat, ss: seq<Gateway.State>, es: seq<Gateway.Event>, late: nat, net: nat,
    owner: nat -> nat, sents: nat -> seq<int>, last: nat -> nat)

  /** The gateway as the benchmark configures it, its timers and the network prompt enough. */
  ghost predicate Prompt(b: Served)
  {
    && Gateway.IsRun(b.world, b.poolSize, b.ss, b.es) && Inference.GoodPeer(b.world.peer)
    && b.world.cfg.passes >= 1 && b.world.cfg.flushInterval == FLUSH_INTERVAL_MS
    && 3 * b.late + b.net < FLUSH_INTERVAL_MS
  }

  predicate OpenAt(b: Served, x: nat, j: nat)
  {
    j < |b.ss| && IsOpen(b.ss[j], b.owner(x))
  }

  /** The connection of session `x` in state `j`. */
  function ConnAt(b: Served, x: nat, j: nat): Conn
    requires OpenAt(b, x, j)
  {
    b.ss[j].ws.conns[b.owner(x)]
  }

  ghost predicate Serves(b: Served, x: nat)
  {
    && OpenAt(b, x, b.last(x)) && SentBy(ConnAt(b, x, b.last(x)), Counter(x))
    && Punctual(b.late, b.ss, b.es, b.owner(x)) && Arriving(b.ss, b.es, b.owner(x), b.sents(x), b.net)
  }

  /** All that session `x` ever hears comes from this connection. */
  function FinalConn(b: Served): nat -> Conn
  {
    (x: nat) => if OpenAt(b, x, b.last(x)) then ConnAt(b, x, b.last(x)) else Session.NewConn(b.world.cfg, 0, 0)
  }

  /**
   How an event of the load generator meets the gateway in state `j`. A session
   hears the next response once the gateway has sent it, and by then the gateway has
   read no more frames than the session has sent. A session that ends has heard
   everything, and its last frame was sent by the time the gateway was in its last
   state.
   */
  ghost predicate Meets(b: Served, s: Loadgen.State, e: Loadgen.Event, j: nat, heard: nat)
  {
    match e
    case Receive(x, m, _) =>
      || m.Transport?
      || (&& x in s.sessions && j <= b.last(x) && OpenAt(b, x, j)
          && heard < |ConnAt(b, x, j).sent| && m == Decoded(ConnAt(b, x, j).sent[heard])
          && |ConnAt(b, x, j).received| <= s.sessions[x].sent)
    case SessionEnds(x, inWindow) =>
      && x in s.sessions
      && (inWindow ==>
            var sent := s.sessions[x].sent;
            && OpenAt(b, x, b.last(x)) && heard == |ConnAt(b, x, b.last(x)).sent|
            && sent <= |b.sents(x)| && (sent > 0 ==> b.sents(x)[sent - 1] <= b.ss[b.last(x)].ws.now))
    case _ => true
  }

  /** The run of the load generator against that gateway; event `i` happens in its state `at(i)`. */
  ghost predicate RunsAgainst(b: Served, ss: seq<Loadgen.State>, es: seq<Loadgen.Event>, at: nat -> nat)
    requires |ss| == |es| + 1
  {
    forall i :: 0 <= i < |es| ==> Meets(b, ss[i], es[i], at(i), Heard(es, i, SessionOf(es[i])))
  }

  lemma ServedPasses(b: Served, x: nat)
    requires Prompt(b) && Serves(b, x)
    ensures Passes(FinalConn(b)(x), x, Recheck(Expected(b.world.cfg.passes, b.world.cfg.modelDelayMs)))
  {
    GatewayPasses(b.world, b.poolSize, b.ss, b.es, b.last(x), b.owner(x), x, b.late, b.net, b.sents(x));
  }

  /** A response reports only frames the gateway had read when it sent it. */
  lemma ReportsWhatWasRead(b: Served, x: nat, j: nat, k: nat)
    requires Prompt(b) && Serves(b, x) && j <= b.last(x) && OpenAt(b, x, j) && k < |ConnAt(b, x, j).sent|
    ensures k < |FinalConn(b)(x).sent| && FinalConn(b)(x).sent[k] == ConnAt(b, x, j).sent[k]
    ensures ConnAt(b, x, j).sent[k].range.newest <= |ConnAt(b, x, j).received|
  {
    var c := ConnAt(b, x, j);
    SentGrows(b.world, b.poolSize, b.ss, b.es, b.owner(x), j, b.last(x));
    EveryConn(b.world, b.poolSize, b.ss, b.es, j, b.owner(x), c);
    RangesAccepted(c, k + 1);
    assert RangesOf(c.sent)[..k + 1][..k] == RangesOf(c.sent)[..k];
    assert RangesOf(c.sent)[..k + 1][k] == c.sent[k].range;
  }

  /** A session that has heard everything has no missing tail. */
  lemma NoMissingTail(b: Served, x: nat, sent: nat)
    requires Prompt(b) && Serves(b, x)
    requires sent <= |b.sents(x)| && (sent > 0 ==> b.sents(x)[sent - 1] <= b.ss[b.last(x)].ws.now)
    ensures CheckTail(sent, Tracker(RangesOf(FinalConn(b)(x).sent))).None?
  {
    var c := ConnAt(b, x, b.last(x));
    EveryConn(b.world, b.poolSize, b.ss, b.es, b.last(x), b.owner(x), c);
    TrackerIsReported(c);
    TailNeverMissing(b.world, b.poolSize, b.ss, b.es, b.late, b.net, b.sents(x), b.owner(x), b.last(x), sent);
  }

  lemma MeetsFed(b: Served, s: Loadgen.State, e: Loadgen.Event, j: nat, heard: nat)
    requires Prompt(b) && Meets(b, s, e, j, heard) && forall x :: x in s.sessions ==> Serves(b, x)
    ensures StepFed(s, e, FinalConn(b), heard)
  {
    match e
    case Receive(x, m, _) =>
      if !m.Transport? { ReportsWhatWasRead(b, x, j, heard); }
    case SessionEnds(x, inWindow) =>
      if inWindow { NoMissingTail(b, x, s.sessions[x].sent); }
    case _ =>
  }

  lemma {:induction false} SessionsWithin(cfg: Loadgen.Config, ids: set<nat>, ss: seq<Loadgen.State>,
                                          es: seq<Loadgen.Event>, i: nat)
    requires Loadgen.IsRun(cfg, ids, ss, es) && i < |ss|
    ensures ss[i].sessions.Keys <= ids
  {
    if i > 0 {
      SessionsWithin(cfg, ids, ss, es, i - 1);
      assert Loadgen.Enabled(ss[i - 1], es[i - 1]) && Loadgen.Defined(ss[i - 1], es[i - 1]);
    }
  }

  /**
   The two together. However many sessions one prompt gateway serves, at whatever
   times they connect and close, and whatever the interleaving, sampling and queue
   of the load generator that drives them, it counts no correctness error: not for a
   message, and not for a session that has ended.
   */
  lemma GatewayPointIsCorrect(b: Served, at: nat -> nat, cfg: Loadgen.Config, ids: set<nat>,
                              ss: seq<Loadgen.State>, es: seq<Loadgen.Event>, n: nat)
    requires Prompt(b) && forall x :: x in ids ==> Serves(b, x)
    requires cfg.recheck == Recheck(Expected(b.world.cfg.passes, b.world.cfg.modelDelayMs))
    requires Loadgen.IsRun(cfg, ids, ss, es) && n < |ss| && RunsAgainst(b, ss, es, at)
    ensures ss[n].book.errors == 0
  {
    forall x | x in ids
      ensures Passes(FinalConn(b)(x), x, cfg.recheck)
    {
      ServedPasses(b, x);
    }
    forall i | 0 <= i < |es|
      ensures StepFed(ss[i], es[i], FinalConn(b), Heard(es, i, SessionOf(es[i])))
    {
      SessionsWithin(cfg, ids, ss, es, i);
      MeetsFed(b, ss[i], es[i], at(i), Heard(es, i, SessionOf(es[i])));
    }
    NeverAnError(cfg, ids, ss, es, FinalConn(b), n);
  }
}
