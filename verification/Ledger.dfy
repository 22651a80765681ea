/**
 The counters the load generator shares between its session tasks and its verifier
 thread (loadgen/rust/src/main.rs:282-323 and 385-447), with the history that says
 what they stand for. Messages are numbered as they arrive.
 */
module Ledger {

  /** Whether a check fails on a message: the inline ones alone, and with its values recomputed too. */
  datatype Finding = Finding(inline: bool, full: bool)

  /**
   `queue` is the verifier's channel and `sending` the messages whose sample is
   being handed over. History: `found` is what checking each message would find;
   `settled` are the messages whose checks have run; `flagged` the messages and
   `tails` the sessions counted in `errors`; `counted` the partials counted in
   `partials`, `checked` those recomputed; `lost` the messages of sessions cancelled
   during the handover.
   */
  datatype Book = Book(
    errors: nat, verified: nat, dropped: nat, partials: nat, skipped: nat,
    queue: seq<nat>,
    sending: set<nat>,
    found: seq<Finding>,
    settled: set<nat>, flagged: set<nat>, tails: set<nat>,
    counted: set<nat>, checked: set<nat>, lost: set<nat>)

  const EMPTY := Book(0, 0, 0, 0, 0, [], {}, [], {}, {}, {}, {}, {}, {})

  /** `Correctness::record`: one error for the message, if any check on it failed. */
  function Record(b: Book, id: nat, failed: bool): Book
  {
    var t := b.(settled := b.settled + {id});
    if failed then t.(errors := b.errors + 1, flagged := b.flagged + {id}) else t
  }

  /** The next message arrives. */
  function Arrive(b: Book, f: Finding): Book
  {
    b.(found := b.found + [f])
  }

  function BeginSending(b: Book, id: nat): Book
  {
    b.(sending := b.sending + {id})
  }

  /** The collector has the sample, and counts it. */
  function HandOver(b: Book, id: nat): Book
  {
    b.(sending := b.sending - {id}, partials := b.partials + 1, counted := b.counted + {id})
  }

  /** `submit_verify`: queue the job or, if the queue is full, record what was found inline. */
  function Submit(b: Book, capacity: nat, id: nat): Book
    requires id < |b.found|
  {
    if |b.queue| < capacity then b.(queue := b.queue + [id])
    else Record(b.(dropped := b.dropped + 1), id, b.found[id].inline)
  }

  /** A counted partial that is not selected for verification. */
  function Skip(b: Book, id: nat): Book
    requires id < |b.found|
  {
    Record(b.(skipped := b.skipped + 1), id, b.found[id].inline)
  }

  /** The verifier thread takes one job, recomputes and records it. */
  function VerifyHead(b: Book): Book
    requires b.queue != [] && b.queue[0] < |b.found|
  {
    var id := b.queue[0];
    Record(b.(queue := b.queue[1..], verified := b.verified + 1, checked := b.checked + {id}), id, b.found[id].full)
  }

  function Lose(b: Book, ids: set<nat>): Book
  {
    b.(sending := b.sending - ids, lost := b.lost + ids)
  }

  /** A session that ended with too long a tail. */
  function Tail(b: Book, x: nat): Book
  {
    b.(errors := b.errors + 1, tails := b.tails + {x})
  }

  // ------------------------------------------------------------------- invariant

  predicate Distinct(q: seq<nat>)
  {
    forall i, j :: 0 <= i < j < |q| ==> q[i] != q[j]
  }

  /** Every message arrived is in exactly one place. */
  ghost predicate PlacesOk(b: Book)
  {
    && Distinct(b.queue)
    && (forall id :: id in b.queue ==> id < |b.found| && id !in b.settled && id !in b.sending && id !in b.lost)
    && (forall id :: id in b.sending ==> id < |b.found| && id !in b.settled && id !in b.lost)
    && (forall id :: id in b.settled ==> id < |b.found| && id !in b.lost)
    && (forall id :: id in b.lost ==> id < |b.found|)
  }

  /** A message is flagged exactly when a check that ran on it failed, and counted once. */
  ghost predicate ErrorsOk(b: Book)
  {
    && b.errors == |b.flagged| + |b.tails|
    && (forall id :: id in b.settled ==> id < |b.found|)
    && (forall id :: id in b.flagged <==>
          id in b.settled && if id in b.checked then b.found[id].full else b.found[id].inline)
  }

  /** Every counted partial is queued, verified, dropped or skipped. */
  ghost predicate FlowOk(b: Book)
  {
    && b.partials == b.verified + b.dropped + |b.queue| + b.skipped
    && |b.counted| == b.partials && |b.checked| == b.verified
    && (forall id :: id in b.queue ==> id in b.counted)
    && b.checked <= b.counted * b.settled
    && (forall id :: id in b.counted ==> id < |b.found| && id !in b.sending && id !in b.lost)
  }

  /** Nothing is left out. */
  ghost predicate Complete(b: Book)
  {
    forall id: nat :: id < |b.found| ==> id in b.settled || id in b.queue || id in b.sending || id in b.lost
  }

  ghost predicate BookOk(b: Book)
  {
    PlacesOk(b) && ErrorsOk(b) && FlowOk(b) && Complete(b)
  }

  lemma RecordErrors(b: Book, id: nat, failed: bool)
    requires ErrorsOk(b) && id !in b.settled && id < |b.found|
    requires failed == if id in b.checked then b.found[id].full else b.found[id].inline
    ensures ErrorsOk(Record(b, id, failed))
  {
    assert id !in b.flagged;
  }

  /** A message all of whose checks run on arrival. */
  lemma ArriveSettled(b: Book, f: Finding)
    requires BookOk(b)
    ensures BookOk(Record(Arrive(b, f), |b.found|, f.inline))
  {
    var t, id := Arrive(b, f), |b.found|;
    assert id !in b.queue && id !in b.settled && id !in b.sending && id !in b.lost && id !in b.counted;
    assert ErrorsOk(t) by { assert forall i :: i in b.settled ==> t.found[i] == b.found[i]; }
    RecordErrors(t, id, f.inline);
  }

  lemma ArriveSending(b: Book, f: Finding)
    requires BookOk(b)
    ensures BookOk(BeginSending(Arrive(b, f), |b.found|))
  {
    var t, id := Arrive(b, f), |b.found|;
    assert id !in b.queue && id !in b.settled && id !in b.sending && id !in b.lost && id !in b.counted;
    assert ErrorsOk(t) by { assert forall i :: i in b.settled ==> t.found[i] == b.found[i]; }
  }

  lemma HandOverQueued(b: Book, id: nat)
    requires BookOk(b) && id in b.sending
    ensures BookOk(HandOver(b, id).(queue := b.queue + [id]))
  {
  }

  /** Message `id` moves from the handover to the settled messages. */
  lemma SettlesPlaces(b: Book, t: Book, id: nat)
    requires PlacesOk(b) && Complete(b) && id in b.sending
    requires t.queue == b.queue && t.lost == b.lost && t.found == b.found
    requires t.sending == b.sending - {id} && t.settled == b.settled + {id}
    ensures PlacesOk(t) && Complete(t)
  {
  }

  /** One more partial is counted, and dropped or skipped. */
  lemma CountsFlow(b: Book, t: Book, id: nat)
    requires FlowOk(b) && id in b.sending && id < |b.found| && id !in b.lost
    requires t.queue == b.queue && t.lost == b.lost && t.found == b.found
    requires t.checked == b.checked && t.verified == b.verified
    requires t.sending == b.sending - {id} && t.settled == b.settled + {id}
    requires t.counted == b.counted + {id} && t.partials == b.partials + 1
    requires t.dropped + t.skipped == b.dropped + b.skipped + 1
    ensures FlowOk(t)
  {
    assert id !in b.counted;
  }

  lemma HandOverErrors(b: Book, t: Book, id: nat)
    requires ErrorsOk(b) && id < |b.found| && id !in b.settled && id !in b.checked
    requires t.found == b.found && t.errors == b.errors && t.settled == b.settled && t.flagged == b.flagged
    requires t.tails == b.tails && t.checked == b.checked
    ensures ErrorsOk(Record(t, id, b.found[id].inline))
  {
    RecordErrors(t, id, b.found[id].inline);
  }

  lemma HandOverDropped(b: Book, id: nat)
    requires BookOk(b) && id in b.sending
    ensures BookOk(Record(HandOver(b, id).(dropped := b.dropped + 1), id, b.found[id].inline))
  {
    var t := HandOver(b, id).(dropped := b.dropped + 1);
    var r := Record(t, id, b.found[id].inline);
    assert PlacesOk(r) && Complete(r) by { SettlesPlaces(b, r, id); }
    assert FlowOk(r) by { CountsFlow(b, r, id); }
    assert ErrorsOk(r) by { HandOverErrors(b, t, id); }
  }

  lemma SubmitKeeps(b: Book, capacity: nat, id: nat)
    requires BookOk(b) && id in b.sending
    ensures BookOk(Submit(HandOver(b, id), capacity, id))
  {
    if |b.queue| < capacity {
      HandOverQueued(b, id);
    } else {
      HandOverDropped(b, id);
    }
  }

  lemma SkipKeeps(b: Book, id: nat)
    requires BookOk(b) && id in b.sending
    ensures BookOk(Skip(HandOver(b, id), id))
  {
    var t := HandOver(b, id).(skipped := b.skipped + 1);
    var r := Record(t, id, b.found[id].inline);
    assert PlacesOk(r) && Complete(r) by { SettlesPlaces(b, r, id); }
    assert FlowOk(r) by { CountsFlow(b, r, id); }
    assert ErrorsOk(r) by { HandOverErrors(b, t, id); }
  }

  /** The head of the queue leaves it for the settled messages. */
  lemma VerifyPlaces(b: Book)
    requires PlacesOk(b) && Complete(b) && b.queue != []
    ensures b.queue[0] in b.queue && b.queue[0] < |b.found| && b.queue[0] !in b.queue[1..]
    ensures PlacesOk(VerifyHead(b)) && Complete(VerifyHead(b))
  {
    assert b.queue[0] in b.queue && b.queue == [b.queue[0]] + b.queue[1..];
  }

  lemma VerifyFlow(b: Book, id: nat)
    requires FlowOk(b) && b.queue != [] && id == b.queue[0] && id !in b.settled && id < |b.found|
    ensures FlowOk(VerifyHead(b))
  {
    assert b.queue == [id] + b.queue[1..];
    assert id in b.queue && id !in b.checked;
    assert |b.checked + {id}| == |b.checked| + 1;
  }

  lemma VerifyErrors(b: Book, id: nat)
    requires ErrorsOk(b) && b.queue != [] && id == b.queue[0] && id !in b.settled && id < |b.found|
    ensures ErrorsOk(VerifyHead(b))
  {
    var t := b.(queue := b.queue[1..], verified := b.verified + 1, checked := b.checked + {id});
    RecordErrors(t, id, b.found[id].full);
  }

  lemma VerifyKeeps(b: Book)
    requires BookOk(b) && b.queue != []
    ensures b.queue[0] in b.queue && BookOk(VerifyHead(b))
  {
    VerifyPlaces(b);
    VerifyFlow(b, b.queue[0]);
    VerifyErrors(b, b.queue[0]);
  }

  lemma TailKeeps(b: Book, x: nat)
    requires BookOk(b) && x !in b.tails
    ensures BookOk(Tail(b, x))
  {
  }

  lemma SubsetFull(a: set<nat>, b: set<nat>)
    requires a <= b && |a| == |b|
    ensures a == b
  {
    assert |b - a| == |b| - |a|;
    assert b - a == {};
  }

  /** With every counted partial verified and no error, recomputing found nothing wrong with any of them. */
  lemma CleanBook(b: Book, id: nat)
    requires BookOk(b) && b.verified == b.partials && b.errors == 0 && id in b.counted
    ensures id < |b.found| && !b.found[id].full
  {
    SubsetFull(b.checked, b.counted);
    assert b.flagged == {};
  }
}
