/**
 The load generator's mutable side: the shared counters, the verifier's queue and
 the per-session checks, updated in place
 (loadgen/rust/src/main.rs:282-323, 385-447, 887-902 and 934-1107).
 */
module LoadgenTasks {
  import opened Octets
  import opened Ranges
  import opened Session
  import opened Verify
  import opened Ledger
  import opened Loadgen

  /** A partial on its way to the verifier, with the mismatches found inline. */
  datatype VerifyJob = VerifyJob(id: nat, session: nat, partial: Response, inline: seq<Kind>)

  ghost predicate JobOf(job: VerifyJob, seen: seq<Context>)
  {
    && job.id < |seen| && Sampled(seen[job.id])
    && job.session == seen[job.id].session && job.partial == seen[job.id].m.p
    && job.inline == InlineFailures(seen[job.id])
  }

  ghost function Ids(jobs: seq<VerifyJob>): seq<nat>
  {
    seq(|jobs|, i requires 0 <= i < |jobs| => jobs[i].id)
  }

  ghost predicate JobsOk(queue: seq<VerifyJob>, sending: map<nat, VerifyJob>, seen: seq<Context>)
  {
    && (forall i :: 0 <= i < |queue| ==> JobOf(queue[i], seen))
    && (forall id :: id in sending ==> sending[id].id == id && JobOf(sending[id], seen))
  }

  class Tasks {
    const cfg: Loadgen.Config
    var errors: nat
    var verified: nat
    var verifyDropped: nat
    var partials: nat
    var messages: nat
    var queue: seq<VerifyJob>
    var sending: map<nat, VerifyJob>
    var sessions: map<nat, Check>
    ghost var seen: seq<Context>
    ghost var book: Book

    ghost predicate Valid()
      reads this
    {
      && errors == book.errors && verified == book.verified
      && verifyDropped == book.dropped && partials == book.partials
      && messages == |seen| && Ids(queue) == book.queue && sending.Keys == book.sending
      && JobsOk(queue, sending, seen)
      && FoundOk(cfg, book.found, seen)
    }

    ghost function View(): State
      reads this
    {
      State(sessions, seen, book)
    }

    constructor (cfg: Loadgen.Config, ids: set<nat>)
      ensures Valid() && this.cfg == cfg && View() == Start(ids)
    {
      this.cfg := cfg;
      errors, verified, verifyDropped, partials, messages := 0, 0, 0, 0, 0;
      queue, sending := [], map[];
      sessions := map i | i in ids :: Check(0, 0, 0);
      seen, book := [], EMPTY;
    }

    /** `Correctness::record`. */
    method RecordMismatches(id: nat, mismatches: seq<Kind>)
      requires Valid()
      modifies this`errors, this`book
      ensures Valid() && book == Record(old(book), id, mismatches != [])
    {
      book := Record(book, id, mismatches != []);
      if mismatches == [] {
        return;
      }
      errors := errors + 1;
    }

    /** `submit_verify`. */
    method SubmitVerify(job: VerifyJob)
      requires Valid() && JobOf(job, seen)
      modifies this`errors, this`verifyDropped, this`queue, this`book
      ensures Valid() && book == Submit(old(book), cfg.capacity, job.id)
    {
      if |queue| < cfg.capacity {
        book := book.(queue := book.queue + [job.id]);
        queue := queue + [job];
      } else {
        verifyDropped := verifyDropped + 1;
        book := book.(dropped := book.dropped + 1);
        RecordMismatches(job.id, job.inline);
      }
    }

    /** `Continuity::observe` for session `x`. */
    method Observe(x: nat, r: Range) returns (gap: seq<Kind>)
      requires Valid() && x in sessions
      modifies this`sessions
      ensures Valid() && gap == Gap(old(sessions[x].lastNewest), r)
      ensures sessions == old(sessions)[x := old(sessions[x]).(lastNewest := Advance(old(sessions[x].lastNewest), r))]
    {
      var last := sessions[x].lastNewest;
      gap := [];
      if r.oldest == 0 || r.newest < r.oldest {
        gap := [InvalidRange];
        return;
      }
      if r.oldest > last + 1 {
        gap := [ContinuityGap];
      } else if r.oldest < last + 1 {
        gap := [ContinuityOverlap];
      }
      if r.newest > last {
        sessions := sessions[x := sessions[x].(lastNewest := r.newest)];
      }
    }

    /** The ghost side of a message's arrival. */
    ghost method Note(c: Context)
      requires Valid()
      modifies this`seen, this`book
      ensures seen == old(seen) + [c] && book == Arrive(old(book), FindingOf(cfg, c))
      ensures JobsOk(queue, sending, seen) && FoundOk(cfg, book.found, seen)
    {
      FoundGrows(cfg, book.found, seen, c);
      seen, book := seen + [c], Arrive(book, FindingOf(cfg, c));
    }

    /** `process_inbound`, up to the handover of the sample. */
    method ProcessInbound(x: nat, m: Inbound, measured: bool)
      requires Valid() && x in sessions
      modifies this
      ensures Valid() && View() == OnInbound(cfg, old(View()), x, m, measured)
    {
      var id, c := messages, sessions[x];
      Note(Context(x, m, measured, c.lastNewest, c.sent));
      messages := messages + 1;
      match m {
        case BinaryMessage => RecordMismatches(id, [MalformedMessage]);
        case Undecodable => RecordMismatches(id, [MalformedMessage]);
        case Transport => RecordMismatches(id, []);
        case ErrorText(r) => {
          var gap := Observe(x, r);
          RecordMismatches(id, if measured then gap else []);
        }
        case PartialText(p, finite) => ProcessPartial(x, id, p, finite, measured, c.sent, c.lastNewest);
      }
      assert sessions == old(sessions)[x := Observed(c, m)];
    }

    /** The branch of `process_inbound` for a decoded partial, message `id`. */
    method ProcessPartial(x: nat, id: nat, p: Response, finite: bool, measured: bool, sent: nat, ghost last: nat)
      requires Valid() && x in sessions && sessions[x].lastNewest == last
      requires id < |seen| && seen[id] == Context(x, PartialText(p, finite), measured, last, sent)
      modifies this`sessions, this`errors, this`book, this`sending
      ensures Valid()
      ensures sessions == old(sessions)[x := old(sessions[x]).(lastNewest := Advance(last, p.range))]
      ensures book == if Sampled(seen[id]) then BeginSending(old(book), id)
                      else Record(old(book), id, InlineFailures(seen[id]) != [])
    {
      var inline := Observe(x, p.range);
      if !ValidPartial(p, finite) {
        RecordMismatches(id, inline + [InvalidPartial]);
        return;
      }
      if !measured {
        RecordMismatches(id, []);
        return;
      }
      var unsent := p.range.newest > sent;
      if unsent {
        inline := inline + [UnsentFrame];
        RecordMismatches(id, inline);
        return;
      }
      assert inline + [] == inline;
      HoldSample(VerifyJob(id, x, p, inline));
    }

    /** The sample of a counted partial is about to be handed over. */
    method HoldSample(job: VerifyJob)
      requires Valid() && JobOf(job, seen)
      modifies this`book, this`sending
      ensures Valid() && book == BeginSending(old(book), job.id)
    {
      sending := sending[job.id := job];
      book := BeginSending(book, job.id);
    }

    /** A counted partial that is not selected: what was found inline is all there is. */
    method RecordUnverified(job: VerifyJob)
      requires Valid() && JobOf(job, seen)
      modifies this`errors, this`book
      ensures Valid() && book == Skip(old(book), job.id)
    {
      book := book.(skipped := book.skipped + 1);
      RecordMismatches(job.id, job.inline);
    }

    /** Whether the next measured partial of session `x` is selected for verification. */
    method Select(x: nat) returns (selected: bool)
      requires Valid() && x in sessions
      modifies this`sessions
      ensures Valid()
      ensures selected <==> cfg.verifyEvery > 0 && Selected(cfg, old(sessions[x]))
      ensures sessions == if cfg.verifyEvery == 0 then old(sessions)
                          else
                            var c := old(sessions[x]);
                            old(sessions)[x := c.(measuredPartials := c.measuredPartials + 1)]
    {
      selected := false;
      if cfg.verifyEvery > 0 {
        var c := sessions[x];
        selected := Selected(cfg, c);
        sessions := sessions[x := c.(measuredPartials := c.measuredPartials + 1)];
      }
    }

    /** The collector takes the sample. */
    method CountSample(id: nat) returns (job: VerifyJob)
      requires Valid() && id in sending
      modifies this`sending, this`partials, this`book
      ensures Valid() && book == HandOver(old(book), id)
      ensures job == old(sending[id]) && job.id == id && JobOf(job, seen)
    {
      job := sending[id];
      sending := sending - {id};
      partials := partials + 1;
      book := HandOver(book, id);
    }

    /** Selects the counted partial for verification, or records it as it is. */
    method Decide(job: VerifyJob)
      requires Valid() && JobOf(job, seen) && job.session in sessions
      modifies this
      ensures Valid() && seen == old(seen)
      ensures
        var c := old(sessions[job.session]);
        if cfg.verifyEvery == 0 then sessions == old(sessions) && book == Skip(old(book), job.id)
        else
          && sessions == old(sessions)[job.session := c.(measuredPartials := c.measuredPartials + 1)]
          && book == if Selected(cfg, c) then Submit(old(book), cfg.capacity, job.id) else Skip(old(book), job.id)
    {
      var selected := Select(job.session);
      if selected {
        SubmitVerify(job);
      } else {
        RecordUnverified(job);
      }
    }

    /** The rest of `process_inbound`, once the collector has taken the sample of message `id`. */
    method SampleHandedOver(id: nat)
      requires Valid() && id in sending && sending[id].session in sessions
      modifies this
      ensures Valid() && View() == OnSampleTaken(cfg, old(View()), id)
    {
      ghost var s := View();
      var job := CountSample(id);
      assert View() == s.(book := HandOver(s.book, id));
      Decide(job);
      assert View() == State(sessions, s.seen, book);
    }

    /** One turn of the verifier thread. */
    method VerifyNext()
      requires Valid() && queue != []
      modifies this
      ensures Valid() && old(View()).book.queue != [] && old(View()).book.queue[0] < |old(View()).book.found|
      ensures View() == old(View()).(book := VerifyHead(old(View()).book))
    {
      var job := queue[0];
      var mismatches := job.inline + cfg.recheck(job.session, job.partial);
      assert Ids(queue[1..]) == book.queue[1..];
      assert mismatches == AllFailures(cfg, seen[job.id]);
      queue := queue[1..];
      verified := verified + 1;
      book := book.(queue := book.queue[1..], verified := book.verified + 1, checked := book.checked + {job.id});
      RecordMismatches(job.id, mismatches);
    }

    /** `check_session_tail`, when session `x` has stopped receiving. */
    method CheckSessionTail(x: nat, inWindow: bool)
      requires Valid() && x in sessions
      modifies this
      ensures Valid() && View() == OnSessionEnds(old(View()), x, inWindow)
    {
      var c := sessions[x];
      sessions := sessions - {x};
      if c.sent == 0 || !inWindow {
        return;
      }
      if CheckTail(c.sent, c.lastNewest).Some? {
        book := Tail(book, x);
        errors := errors + 1;
      }
    }
  }
}
