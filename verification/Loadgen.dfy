/**
 The load generator's handling of what a gateway sends
 (loadgen/rust/src/main.rs:385-447, 887-902 and 934-1107): session tasks and one
 verifier thread behind a bounded queue. A session task can be suspended, or
 cancelled, only while it hands its sample over, so a run is a sequence of the
 stretches between those points, in any interleaving with the verifier thread. A
 job in the verifier's queue is named by the number of the message it came from.
 */
module Loadgen {
  import opened Octets
  import opened Ranges
  import opened Session
  import opened Verify
  import opened Ledger
  import EvalSlo
  import opened Stub

  /** `recheck` is the recomputation of a partial's values, see `Recheck`. */
  datatype Config = Config(verifyEvery: nat, capacity: nat, recheck: (nat, Response) -> seq<Kind>)

  /** `verify_partial` for the frames session `x` sent. */
  function Recheck(e: Expected): (nat, Response) -> seq<Kind>
  {
    (x: nat, p: Response) => if p.Partial? then Mismatches(Counter(x), p, e) else []
  }

  /**
   A message from the gateway: a binary message, a ping or pong, text that does not
   decode, an error frame, or a partial (`finite` tells that its floating-point
   fields pass validation).
   */
  datatype Inbound =
    | BinaryMessage | Transport | Undecodable
    | ErrorText(range: Range)
    | PartialText(p: Response, finite: bool)

  /** A session's continuity tracker, its count of measured partials, and the frames it has sent. */
  datatype Check = Check(lastNewest: nat, measuredPartials: nat, sent: nat)

  /** A message and the circumstances it met. */
  datatype Context = Context(session: nat, m: Inbound, measured: bool, last: nat, sent: nat)

  datatype State = State(sessions: map<nat, Check>, seen: seq<Context>, book: Book)

  function Start(ids: set<nat>): State
  {
    State(map i | i in ids :: Check(0, 0, 0), [], EMPTY)
  }

  /** `PartialMessage::validate`. */
  predicate ValidPartial(p: Response, finite: bool)
  {
    p.Partial? && WellFormed(p.range) && p.frames > 0 && p.infer.samples > 0 && p.infer.audioBytes > 0 && finite
  }

  function Gap(last: nat, r: Range): seq<Kind>
  {
    if Verdict(last, r).Some? then [Verdict(last, r).value] else []
  }

  // -------------------------------------------------------------------- reference

  /** The partial is counted: it is valid, measured, and about frames that were sent. */
  predicate Sampled(c: Context)
  {
    c.m.PartialText? && ValidPartial(c.m.p, c.m.finite) && c.measured && c.m.p.range.newest <= c.sent
  }

  /** The checks that fail on a message when its values are not recomputed. */
  function InlineFailures(c: Context): seq<Kind>
  {
    match c.m
    case BinaryMessage => [MalformedMessage]
    case Undecodable => [MalformedMessage]
    case Transport => []
    case ErrorText(r) => if c.measured then Gap(c.last, r) else []
    case PartialText(p, finite) =>
      if !ValidPartial(p, finite) then Gap(c.last, p.range) + [InvalidPartial]
      else if !c.measured then []
      else Gap(c.last, p.range) + When(p.range.newest > c.sent, UnsentFrame)
  }

  /** The checks that fail when they are. */
  function AllFailures(cfg: Config, c: Context): seq<Kind>
  {
    InlineFailures(c) + if c.m.PartialText? then cfg.recheck(c.session, c.m.p) else []
  }

  function FindingOf(cfg: Config, c: Context): Finding
  {
    Finding(InlineFailures(c) != [], AllFailures(cfg, c) != [])
  }

  // ------------------------------------------------------------------------ steps

  datatype Event =
    | SendFrame(session: nat)
    | Receive(session: nat, m: Inbound, measured: bool)
    | SampleTaken(id: nat)
    | Cancelled(session: nat)
    | VerifierTurn
    | SessionEnds(session: nat, inWindow: bool)

  /** The messages of session `x` whose sample is being handed over: at most one. */
  function Waiting(s: State, x: nat): set<nat>
  {
    set id | id in s.book.sending && id < |s.seen| && s.seen[id].session == x
  }

  ghost predicate Enabled(s: State, e: Event)
  {
    match e
    case SendFrame(x) => x in s.sessions && Waiting(s, x) == {}
    case Receive(x, _, _) => x in s.sessions && Waiting(s, x) == {}
    case SampleTaken(id) => id in s.book.sending && id < |s.seen| && s.seen[id].session in s.sessions
    case Cancelled(x) => x in s.sessions
    case VerifierTurn => s.book.queue != []
    case SessionEnds(x, _) => x in s.sessions && Waiting(s, x) == {}
  }

  /** The session's continuity tracker takes in the range of a decoded response. */
  function Observed(c: Check, m: Inbound): Check
  {
    match m
    case ErrorText(r) => c.(lastNewest := Advance(c.lastNewest, r))
    case PartialText(p, _) => c.(lastNewest := Advance(c.lastNewest, p.range))
    case _ => c
  }

  /** `process_inbound`, up to the handover of the sample. */
  function OnInbound(cfg: Config, s: State, x: nat, m: Inbound, measured: bool): State
    requires x in s.sessions
  {
    var c, id := s.sessions[x], |s.book.found|;
    var ctx := Context(x, m, measured, c.lastNewest, c.sent);
    var b := Arrive(s.book, FindingOf(cfg, ctx));
    State(s.sessions[x := Observed(c, m)], s.seen + [ctx],
          if Sampled(ctx) then BeginSending(b, id) else Record(b, id, InlineFailures(ctx) != []))
  }

  /** Every `verifyEvery`-th measured partial of a session is verified. */
  predicate Selected(cfg: Config, c: Check)
    requires cfg.verifyEvery > 0
  {
    c.measuredPartials % cfg.verifyEvery == 0
  }

  /** The rest of `process_inbound`, once the sample is handed over. */
  function OnSampleTaken(cfg: Config, s: State, id: nat): State
    requires id < |s.seen| && s.seen[id].session in s.sessions && id < |s.book.found|
  {
    var x := s.seen[id].session;
    var c, b := s.sessions[x], HandOver(s.book, id);
    if cfg.verifyEvery == 0 then s.(book := Skip(b, id))
    else
      s.(sessions := s.sessions[x := c.(measuredPartials := c.measuredPartials + 1)],
         book := if Selected(cfg, c) then Submit(b, cfg.capacity, id) else Skip(b, id))
  }

  function OnCancelled(s: State, x: nat): State
  {
    s.(sessions := s.sessions - {x}, book := Lose(s.book, Waiting(s, x)))
  }

  /** `check_session_tail`; `inWindow` tells that the last frame was sent in the measured window. */
  function OnSessionEnds(s: State, x: nat, inWindow: bool): State
    requires x in s.sessions
  {
    var c := s.sessions[x];
    s.(sessions := s.sessions - {x},
       book := if c.sent > 0 && inWindow && CheckTail(c.sent, c.lastNewest).Some? then Tail(s.book, x) else s.book)
  }

  ghost predicate Defined(s: State, e: Event)
  {
    && (e.SampleTaken? ==> e.id < |s.book.found|)
    && (e.VerifierTurn? ==> s.book.queue != [] && s.book.queue[0] < |s.book.found|)
  }

  ghost function Next(cfg: Config, s: State, e: Event): State
    requires Enabled(s, e) && Defined(s, e)
  {
    match e
    case SendFrame(x) => s.(sessions := s.sessions[x := s.sessions[x].(sent := s.sessions[x].sent + 1)])
    case Receive(x, m, measured) => OnInbound(cfg, s, x, m, measured)
    case SampleTaken(id) => OnSampleTaken(cfg, s, id)
    case Cancelled(x) => OnCancelled(s, x)
    case VerifierTurn => s.(book := VerifyHead(s.book))
    case SessionEnds(x, inWindow) => OnSessionEnds(s, x, inWindow)
  }

  // ------------------------------------------------------------------- invariant

  /** The ledger's findings are what the reference says of the messages seen. */
  ghost predicate FoundOk(cfg: Config, found: seq<Finding>, seen: seq<Context>)
  {
    |found| == |seen| && forall i :: 0 <= i < |seen| ==> found[i] == FindingOf(cfg, seen[i])
  }

  ghost predicate AllSampled(ids: set<nat>, seen: seq<Context>)
  {
    forall id :: id in ids ==> id < |seen| && Sampled(seen[id])
  }

  ghost predicate Inv(cfg: Config, s: State)
  {
    && BookOk(s.book) && FoundOk(cfg, s.book.found, s.seen)
    && AllSampled(s.book.counted, s.seen) && AllSampled(s.book.sending, s.seen)
    && (forall x :: x in s.book.tails ==> x !in s.sessions)
    && (cfg.verifyEvery == 1 ==> s.book.skipped == 0)
  }

  lemma SampledGrows(ids: set<nat>, seen: seq<Context>, c: Context)
    requires AllSampled(ids, seen)
    ensures AllSampled(ids, seen + [c])
    ensures Sampled(c) ==> AllSampled(ids + {|seen|}, seen + [c])
  {
  }

  lemma FoundGrows(cfg: Config, found: seq<Finding>, seen: seq<Context>, c: Context)
    requires FoundOk(cfg, found, seen)
    ensures FoundOk(cfg, found + [FindingOf(cfg, c)], seen + [c])
  {
  }

  lemma ReceiveKeeps(cfg: Config, s: State, x: nat, m: Inbound, measured: bool)
    requires Inv(cfg, s) && x in s.sessions
    ensures Inv(cfg, OnInbound(cfg, s, x, m, measured))
  {
    var c := Context(x, m, measured, s.sessions[x].lastNewest, s.sessions[x].sent);
    var f := FindingOf(cfg, c);
    FoundGrows(cfg, s.book.found, s.seen, c);
    SampledGrows(s.book.counted, s.seen, c);
    SampledGrows(s.book.sending, s.seen, c);
    if Sampled(c) {
      ArriveSending(s.book, f);
    } else {
      ArriveSettled(s.book, f);
    }
  }

  lemma HandedOver(ids: set<nat>, sending: set<nat>, seen: seq<Context>, id: nat)
    requires AllSampled(ids, seen) && AllSampled(sending, seen) && id in sending
    ensures AllSampled(ids + {id}, seen) && AllSampled(sending - {id}, seen)
  {
  }

  lemma SampleSkipped(cfg: Config, s: State, id: nat, sessions: map<nat, Check>)
    requires Inv(cfg, s) && id in s.book.sending && sessions.Keys == s.sessions.Keys && cfg.verifyEvery != 1
    ensures Inv(cfg, s.(sessions := sessions, book := Skip(HandOver(s.book, id), id)))
  {
    HandedOver(s.book.counted, s.book.sending, s.seen, id);
    SkipKeeps(s.book, id);
  }

  lemma SampleSubmitted(cfg: Config, s: State, id: nat, sessions: map<nat, Check>)
    requires Inv(cfg, s) && id in s.book.sending && sessions.Keys == s.sessions.Keys
    ensures Inv(cfg, s.(sessions := sessions, book := Submit(HandOver(s.book, id), cfg.capacity, id)))
  {
    HandedOver(s.book.counted, s.book.sending, s.seen, id);
    SubmitKeeps(s.book, cfg.capacity, id);
  }

  lemma SampleKeeps(cfg: Config, s: State, id: nat)
    requires Inv(cfg, s) && id in s.book.sending && id < |s.seen| && s.seen[id].session in s.sessions
    ensures Inv(cfg, OnSampleTaken(cfg, s, id))
  {
    var x := s.seen[id].session;
    var c := s.sessions[x];
    var sessions := s.sessions[x := c.(measuredPartials := c.measuredPartials + 1)];
    if cfg.verifyEvery == 0 {
      SampleSkipped(cfg, s, id, s.sessions);
    } else if Selected(cfg, c) {
      SampleSubmitted(cfg, s, id, sessions);
    } else {
      SampleSkipped(cfg, s, id, sessions);
    }
  }

  /** Every step keeps the books. */
  lemma NextKeeps(cfg: Config, s: State, e: Event)
    requires Inv(cfg, s) && Enabled(s, e)
    ensures Defined(s, e) && Inv(cfg, Next(cfg, s, e))
  {
    match e
    case SendFrame(_) =>
    case Receive(x, m, measured) => ReceiveKeeps(cfg, s, x, m, measured);
    case SampleTaken(id) => SampleKeeps(cfg, s, id);
    case Cancelled(x) =>
    case VerifierTurn => VerifyKeeps(s.book);
    case SessionEnds(x, inWindow) => TailKeeps(s.book, x);
  }

  ghost predicate IsRun(cfg: Config, ids: set<nat>, ss: seq<State>, es: seq<Event>)
  {
    && |ss| == |es| + 1 && ss[0] == Start(ids)
    && forall i :: 0 <= i < |es| ==>
         Enabled(ss[i], es[i]) && Defined(ss[i], es[i]) && ss[i + 1] == Next(cfg, ss[i], es[i])
  }

  lemma {:induction false} RunInv(cfg: Config, ids: set<nat>, ss: seq<State>, es: seq<Event>, i: nat)
    requires IsRun(cfg, ids, ss, es) && i < |ss|
    ensures Inv(cfg, ss[i])
  {
    if i > 0 {
      RunInv(cfg, ids, ss, es, i - 1);
      NextKeeps(cfg, ss[i - 1], es[i - 1]);
    }
  }

  // -------------------------------------------------------------------- theorems

  /**
   Conservation, for every stream of messages and every pattern of full queues:
   each counted partial is verified, dropped, skipped or still queued. So with every
   partial selected, once the queue is drained, partials = verified + dropped.
   */
  lemma PartialsConserved(cfg: Config, ids: set<nat>, ss: seq<State>, es: seq<Event>, n: nat)
    requires IsRun(cfg, ids, ss, es) && n < |ss|
    ensures var b := ss[n].book;
            && b.partials == b.verified + b.dropped + b.skipped + |b.queue|
            && (b.queue == [] && cfg.verifyEvery == 1 ==> b.partials == b.verified + b.dropped)
  {
    RunInv(cfg, ids, ss, es, n);
  }

  /**
   `errors` counts messages and sessions, each at most once. A message is among them
   exactly when some check run on it failed; and once no sample is being handed over
   and the queue is drained, the checks have run on every message except those of
   sessions cancelled during a handover.
   */
  lemma ErrorsExact(cfg: Config, ids: set<nat>, ss: seq<State>, es: seq<Event>, n: nat, id: nat)
    requires IsRun(cfg, ids, ss, es) && n < |ss| && id < |ss[n].seen|
    ensures var b, c := ss[n].book, ss[n].seen[id];
            && b.errors == |b.flagged| + |b.tails|
            && (id in b.settled ==>
                  (id in b.flagged <==> (if id in b.checked then AllFailures(cfg, c) else InlineFailures(c)) != []))
            && (id !in b.settled ==> id !in b.flagged)
            && (b.queue == [] && b.sending == {} ==> id in b.settled || id in b.lost)
  {
    RunInv(cfg, ids, ss, es, n);
  }

  /** What the load generator reports of its books. */
  predicate Reports(b: Book, r: EvalSlo.Summary)
  {
    r.partials == b.partials && r.verified == b.verified && r.dropped == b.dropped && r.correctnessErrors == b.errors
  }

  /**
   A PASS means what it says: some partial was counted, and every counted partial
   continues its session's ranges, is about frames that were sent, and carries the
   stub's answer to exactly those frames.
   */
  lemma PassMeansHonest(cfg: Config, e: Expected, ids: set<nat>, ss: seq<State>, es: seq<Event>, n: nat,
                        r: EvalSlo.Summary, id: nat)
    requires cfg.recheck == Recheck(e) && IsRun(cfg, ids, ss, es) && n < |ss| && Reports(ss[n].book, r)
    requires EvalSlo.ObservedOk(r) && EvalSlo.Verified(r)
    ensures ss[n].book.counted != {}
    ensures id in ss[n].book.counted ==>
              id < |ss[n].seen| && Sampled(ss[n].seen[id]) && HonestIn(ss[n].seen[id], e)
  {
    RunInv(cfg, ids, ss, es, n);
    if id in ss[n].book.counted {
      var c := ss[n].seen[id];
      CleanBook(ss[n].book, id);
      assert AllFailures(cfg, c) == [];
      CleanIsHonest(cfg, e, c);
    }
  }

  ghost predicate HonestIn(c: Context, e: Expected)
    requires c.m.PartialText? && c.m.p.Partial?
  {
    var p := c.m.p;
    && p.range.oldest == c.last + 1 && p.range.newest <= c.sent
    && p.frames == p.range.newest - c.last && p.passes == e.passes && p.modelDelayMs == e.modelDelayMs
    && Agrees(p.infer, ComputeStub(ExpectedAudio(Counter(c.session), p.range), e.passes))
  }

  lemma CleanIsHonest(cfg: Config, e: Expected, c: Context)
    requires cfg.recheck == Recheck(e) && Sampled(c) && AllFailures(cfg, c) == []
    ensures HonestIn(c, e)
  {
    var p := c.m.p;
    assert InlineFailures(c) == [] && cfg.recheck(c.session, p) == [];
    assert Mismatches(Counter(c.session), p, e) == [];
    PassesIffHonest(Counter(c.session), p, e);
  }
}
