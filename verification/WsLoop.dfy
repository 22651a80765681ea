/**
 Thread A: the WebSocket event loop (services/rust-sync/src/main.rs:111-236). It
 owns the connections, one heap of timer entries, and the list of connections
 to close at the end of the iteration.

 The binary heap is a sequence kept in order of (time, id), which is the order
 in which it is popped.
 */
module WsLoop {
  import opened Octets
  import opened Http
  import opened Inference
  import opened Session

  /** Thread A to thread B. */
  datatype Cmd = SubmitCmd(owner: nat, tag: nat, request: Request) | AbortCmd(owner: nat)

  datatype Timer = Timer(at: int, id: nat)

  predicate Before(a: Timer, b: Timer) { a.at < b.at || (a.at == b.at && a.id <= b.id) }

  /** `BinaryHeap::push`. */
  function Push(ts: seq<Timer>, e: Timer): seq<Timer>
  {
    if ts == [] || Before(e, ts[0]) then [e] + ts else [ts[0]] + Push(ts[1..], e)
  }

  const FIRST_CONN_ID: nat := 2

  datatype Ws = Ws(conns: map<nat, Conn>, timers: seq<Timer>, nextId: nat, closing: seq<nat>, now: int)

  const START_WS := Ws(map[], [], FIRST_CONN_ID, [], 0)

  /** `accept`: the id is used up even when registering the stream fails. */
  function AcceptConn(cfg: Config, w: Ws, registered: bool, at: int, phase: nat): Ws
  {
    var w1 := w.(nextId := w.nextId + 1);
    if !registered then w1 else
    var c := NewConn(cfg, at, phase);
    w1.(conns := w.conns[w.nextId := c], timers := Push(w.timers, Timer(Deadline(c), w.nextId)))
  }

  /** A message read from connection `id`. */
  function ReadMessage(w: Ws, id: nat, m: Message, at: int): Ws
  {
    if id !in w.conns then w else
    var (c, o) := OnMessage(w.conns[id], m, at);
    w.(conns := w.conns[id := c], closing := if o.Close? then w.closing + [id] else w.closing)
  }

  /** A read or write on the WebSocket failed (`Outcome::Close`). */
  function ConnBroken(w: Ws, id: nat): Ws
  {
    if id !in w.conns then w else w.(closing := w.closing + [id])
  }

  /** One drained result; `fails` is whether flushing the answer failed. */
  function TakeResult(cfg: Config, w: Ws, d: Done, fails: bool): Ws
  {
    if d.owner !in w.conns then w else
    var c := w.conns[d.owner];
    var c1 := OnDone(cfg, c, d.tag, d.reply);
    w.(conns := w.conns[d.owner := c1],
       closing := if fails && c1 != c then w.closing + [d.owner] else w.closing)
  }

  predicate Due(w: Ws) { w.timers != [] && w.timers[0].at <= w.now }

  /** The connection after its tick has been acted on. */
  function Handled(cfg: Config, c: Conn, now: int): Conn
  {
    var (c1, tick) := OnTimer(cfg, c, now);
    match tick
    case TickKeep => c1
    case TickFlush(b) => BeginPending(c1, b, now)
    case TickTimeout => Deliver(cfg, c1, Err(Timeout))
  }

  /** What goes to thread B for a tick of connection `id`. */
  function TickCmd(cfg: Config, c: Conn, id: nat, now: int): seq<Cmd>
  {
    match OnTimer(cfg, c, now).1
    case TickKeep => []
    case TickFlush(b) => [SubmitCmd(id, b.Tag(), Request(c.pcm, cfg.passes))]
    case TickTimeout => [AbortCmd(id)]
  }

  /**
   One iteration of the timer loop: every kind of tick updates its connection,
   and reschedules it unless a timeout answer could not be flushed.
   */
  function TakeTimer(cfg: Config, w: Ws, fails: bool): (Ws, seq<Cmd>)
    requires Due(w)
  {
    var id, rest := w.timers[0].id, w.timers[1..];
    if id !in w.conns then (w.(timers := rest), []) else
    var c := w.conns[id];
    (Rescheduled(w, id, Handled(cfg, c, w.now), fails && TimedOut(c, w.now)), TickCmd(cfg, c, id, w.now))
  }

  /** Connection `id` is now `c`, and is queued again, or to be closed. */
  function Rescheduled(w: Ws, id: nat, c: Conn, drop: bool): Ws
    requires w.timers != []
  {
    var w1 := w.(conns := w.conns[id := c]);
    if drop then w1.(timers := w.timers[1..], closing := w.closing + [id])
    else w1.(timers := Push(w.timers[1..], Timer(Deadline(c), id)))
  }

  /** One iteration of the closing loop. */
  function Reap(w: Ws): (Ws, seq<Cmd>)
    requires w.closing != []
  {
    var id := w.closing[0];
    var w1 := w.(closing := w.closing[1..]);
    if id !in w.conns then (w1, []) else
    (w1.(conns := w.conns - {id}), if w.conns[id].pending.Some? then [AbortCmd(id)] else [])
  }

  // ------------------------------------------------------------ timer invariant

  predicate Sorted(ts: seq<Timer>)
  {
    forall i, j :: 0 <= i < j < |ts| ==> Before(ts[i], ts[j])
  }

  predicate OncePerId(ts: seq<Timer>)
  {
    forall i, j :: 0 <= i < j < |ts| ==> ts[i].id != ts[j].id
  }

  predicate Mentions(ts: seq<Timer>, id: nat)
  {
    exists i :: 0 <= i < |ts| && ts[i].id == id
  }

  /** `id` has an entry, no later than `at`. */
  predicate Scheduled(ts: seq<Timer>, id: nat, at: int)
  {
    exists i :: 0 <= i < |ts| && ts[i].id == id && ts[i].at <= at
  }

  /**
   Every connection that is not about to be closed has exactly one heap entry,
   which fires no later than the connection's deadline.
   */
  ghost predicate TimersOk(w: Ws)
  {
    && Sorted(w.timers) && OncePerId(w.timers)
    && (forall i :: 0 <= i < |w.timers| ==> w.timers[i].id < w.nextId)
    && (forall id :: id in w.conns ==> id < w.nextId)
    && (forall id :: id in w.conns && id !in w.closing ==> Scheduled(w.timers, id, Deadline(w.conns[id])))
  }

  /** Pushing keeps the order and adds exactly the one entry. */
  lemma {:induction false} PushAdds(ts: seq<Timer>, e: Timer)
    ensures multiset(Push(ts, e)) == multiset(ts) + multiset{e}
  {
    if ts != [] && !Before(e, ts[0]) {
      PushAdds(ts[1..], e);
      assert ts == [ts[0]] + ts[1..];
    }
  }

  lemma AddedFrom(ts: seq<Timer>, e: Timer, x: Timer)
    requires x in Push(ts, e)
    ensures x == e || x in ts
  {
    PushAdds(ts, e);
    assert x in multiset(Push(ts, e));
    assert x in multiset(ts) + multiset{e};
  }

  lemma {:induction false} PushKeeps(ts: seq<Timer>, e: Timer)
    requires Sorted(ts)
    ensures Sorted(Push(ts, e))
    ensures multiset(Push(ts, e)) == multiset(ts) + multiset{e}
  {
    PushAdds(ts, e);
    if ts != [] && !Before(e, ts[0]) {
      PushKeeps(ts[1..], e);
      var r := Push(ts[1..], e);
      forall j | 0 <= j < |r|
        ensures Before(ts[0], r[j])
      {
        AddedFrom(ts[1..], e, r[j]);
      }
    }
  }

  lemma PushMember(ts: seq<Timer>, e: Timer, x: Timer)
    requires Sorted(ts)
    ensures x in Push(ts, e) <==> x == e || x in ts
  {
    PushKeeps(ts, e);
    assert x in Push(ts, e) <==> x in multiset(Push(ts, e));
    assert x in ts <==> x in multiset(ts);
  }

  lemma {:induction false} PushOnce(ts: seq<Timer>, e: Timer)
    requires Sorted(ts) && OncePerId(ts) && !Mentions(ts, e.id)
    ensures OncePerId(Push(ts, e))
  {
    if ts != [] && !Before(e, ts[0]) {
      PushOnce(ts[1..], e);
      var r := Push(ts[1..], e);
      forall j | 0 <= j < |r|
        ensures r[j].id != ts[0].id
      {
        PushMember(ts[1..], e, r[j]);
        assert r[j] in r;
      }
    }
  }

  /** Replacing the head entry of a live connection by its new deadline keeps the invariant. */
  lemma Repush(w: Ws, c: Conn)
    requires TimersOk(w) && w.timers != [] && w.timers[0].id in w.conns
    ensures
      var id := w.timers[0].id;
      TimersOk(w.(conns := w.conns[id := c], timers := Push(w.timers[1..], Timer(Deadline(c), id))))
  {
    var id, rest := w.timers[0].id, w.timers[1..];
    var e := Timer(Deadline(c), id);
    PushKeeps(rest, e);
    assert !Mentions(rest, id);
    PushOnce(rest, e);
    var ts := Push(rest, e);
    forall x | x in ts
      ensures x.id < w.nextId
    {
      PushMember(rest, e, x);
    }
    var conns := w.conns[id := c];
    forall k | k in conns && k !in w.closing
      ensures Scheduled(ts, k, Deadline(conns[k]))
    {
      if k == id {
        PushMember(rest, e, e);
      } else {
        var i :| 0 <= i < |w.timers| && w.timers[i].id == k && w.timers[i].at <= Deadline(w.conns[k]);
        assert rest[i - 1] == w.timers[i];
        PushMember(rest, e, w.timers[i]);
      }
    }
  }

  /** Dropping the head entry is safe when its connection is gone or closing. */
  lemma PopHead(w: Ws)
    requires TimersOk(w) && w.timers != []
    requires w.timers[0].id !in w.conns || w.timers[0].id in w.closing
    ensures TimersOk(w.(timers := w.timers[1..]))
  {
    var rest := w.timers[1..];
    forall k | k in w.conns && k !in w.closing
      ensures Scheduled(rest, k, Deadline(w.conns[k]))
    {
      var i :| 0 <= i < |w.timers| && w.timers[i].id == k && w.timers[i].at <= Deadline(w.conns[k]);
      assert rest[i - 1] == w.timers[i];
    }
  }

  lemma TakeTimerOk(cfg: Config, w: Ws, fails: bool)
    requires TimersOk(w) && Due(w)
    ensures TimersOk(TakeTimer(cfg, w, fails).0)
  {
    var id := w.timers[0].id;
    if id !in w.conns {
      PopHead(w);
    } else {
      var c1 := Handled(cfg, w.conns[id], w.now);
      if fails && TimedOut(w.conns[id], w.now) {
        PopHead(w.(conns := w.conns[id := c1], closing := w.closing + [id]));
      } else {
        Repush(w, c1);
      }
    }
  }

  /** A delivered answer never moves a deadline earlier. */
  lemma TakeResultOk(cfg: Config, w: Ws, d: Done, fails: bool)
    requires TimersOk(w)
    ensures TimersOk(TakeResult(cfg, w, d, fails))
  {
    var w1 := TakeResult(cfg, w, d, fails);
    forall k | k in w1.conns && k !in w1.closing
      ensures Scheduled(w1.timers, k, Deadline(w1.conns[k]))
    {
      assert k !in w.closing;
      assert Deadline(w.conns[k]) <= Deadline(w1.conns[k]);
      var i :| 0 <= i < |w.timers| && w.timers[i].id == k && w.timers[i].at <= Deadline(w.conns[k]);
    }
  }

  lemma AcceptOk(cfg: Config, w: Ws, registered: bool, at: int, phase: nat)
    requires TimersOk(w)
    ensures TimersOk(AcceptConn(cfg, w, registered, at, phase))
  {
    if registered {
      var w1 := AcceptConn(cfg, w, registered, at, phase);
      var e := Timer(Deadline(NewConn(cfg, at, phase)), w.nextId);
      PushKeeps(w.timers, e);
      PushOnce(w.timers, e);
      forall x | x in w1.timers
        ensures x.id < w1.nextId
      {
        PushMember(w.timers, e, x);
      }
      forall k | k in w1.conns && k !in w1.closing
        ensures Scheduled(w1.timers, k, Deadline(w1.conns[k]))
      {
        if k == w.nextId {
          PushMember(w.timers, e, e);
        } else {
          var i :| 0 <= i < |w.timers| && w.timers[i].id == k && w.timers[i].at <= Deadline(w.conns[k]);
          PushMember(w.timers, e, w.timers[i]);
        }
      }
    }
  }

  lemma ReapOk(w: Ws)
    requires TimersOk(w) && w.closing != []
    ensures TimersOk(Reap(w).0)
  {
    var w1 := Reap(w).0;
    forall k | k in w1.conns && k !in w1.closing
      ensures Scheduled(w1.timers, k, Deadline(w1.conns[k]))
    {
      assert w.closing == [w.closing[0]] + w.closing[1..];
      assert k !in w.closing;
    }
  }

  // ------------------------------------------------------------- the timer pass

  /** Time by which the connection's flush is behind. */
  function Backlog(c: Conn, now: int): nat
  {
    if c.nextFlush > now then 0 else now - c.nextFlush + 1
  }

  /** Work a heap entry still causes in a pass at time `now`. */
  function Weight(conns: map<nat, Conn>, now: int, e: Timer): nat
  {
    if e.at > now then 0
    else if e.id !in conns then 1
    else 1 + Backlog(conns[e.id], now) + (if TimedOut(conns[e.id], now) then 1 else 0)
  }

  function Work(conns: map<nat, Conn>, now: int, ts: seq<Timer>): nat
  {
    if ts == [] then 0 else Weight(conns, now, ts[0]) + Work(conns, now, ts[1..])
  }

  lemma {:induction false} WorkPush(conns: map<nat, Conn>, now: int, ts: seq<Timer>, e: Timer)
    ensures Work(conns, now, Push(ts, e)) == Work(conns, now, ts) + Weight(conns, now, e)
  {
    if ts != [] && !Before(e, ts[0]) {
      WorkPush(conns, now, ts[1..], e);
    }
  }

  lemma {:induction false} WorkFrame(conns: map<nat, Conn>, now: int, ts: seq<Timer>, id: nat, c: Conn)
    requires !Mentions(ts, id)
    ensures Work(conns[id := c], now, ts) == Work(conns, now, ts)
  {
    if ts != [] {
      assert ts[0].id != id;
      assert forall i :: 0 <= i < |ts[1..]| ==> ts[1..][i] == ts[i + 1];
      WorkFrame(conns, now, ts[1..], id, c);
    }
  }

  lemma TakeTimerLess(cfg: Config, w: Ws, fails: bool)
    requires cfg.flushInterval >= 1 && TimersOk(w) && Due(w)
    ensures
      var w1 := TakeTimer(cfg, w, fails).0;
      w1.now == w.now && Work(w1.conns, w1.now, w1.timers) < Work(w.conns, w.now, w.timers)
  {
    var e, rest := w.timers[0], w.timers[1..];
    if e.id in w.conns {
      var w1 := TakeTimer(cfg, w, fails).0;
      var c2 := w1.conns[e.id];
      assert !Mentions(rest, e.id);
      WorkFrame(w.conns, w.now, rest, e.id, c2);
      WorkPush(w.conns[e.id := c2], w.now, rest, Timer(Deadline(c2), e.id));
    }
  }

  /** The whole timer loop; `fails` says which of the timeout answers cannot be flushed. */
  function TimerPass(cfg: Config, w: Ws, fails: seq<bool>): (Ws, seq<Cmd>)
    requires cfg.flushInterval >= 1 && TimersOk(w)
    decreases Work(w.conns, w.now, w.timers)
  {
    if !Due(w) then (w, []) else
    var f := fails != [] && fails[0];
    TakeTimerOk(cfg, w, f);
    TakeTimerLess(cfg, w, f);
    var (w1, out) := TakeTimer(cfg, w, f);
    var (w2, outs) := TimerPass(cfg, w1, if fails == [] then [] else fails[1..]);
    (w2, out + outs)
  }

  lemma TimerPassStep(cfg: Config, w: Ws, fails: seq<bool>)
    requires cfg.flushInterval >= 1 && TimersOk(w) && Due(w)
    ensures
      var (w1, out) := TakeTimer(cfg, w, fails != [] && fails[0]);
      var rest := if fails == [] then [] else fails[1..];
      && TimersOk(w1) && Work(w1.conns, w1.now, w1.timers) < Work(w.conns, w.now, w.timers)
      && TimerPass(cfg, w, fails) == (TimerPass(cfg, w1, rest).0, out + TimerPass(cfg, w1, rest).1)
  {
    TakeTimerOk(cfg, w, fails != [] && fails[0]);
    TakeTimerLess(cfg, w, fails != [] && fails[0]);
  }

  /** No connection that stays open is overdue. */
  ghost predicate NoneOverdue(w: Ws)
  {
    forall id :: id in w.conns && id !in w.closing ==> Deadline(w.conns[id]) > w.now
  }

  /**
   When the pass ends no connection that stays open is overdue: each has exactly
   one heap entry, later than now and no later than its deadline.
   */
  lemma {:induction false} TimerPassSettles(cfg: Config, w: Ws, fails: seq<bool>)
    requires cfg.flushInterval >= 1 && TimersOk(w)
    ensures
      var w1 := TimerPass(cfg, w, fails).0;
      && TimersOk(w1) && w1.now == w.now && w1.conns.Keys == w.conns.Keys
      && (forall i :: 0 <= i < |w1.timers| ==> w1.timers[i].at > w.now)
      && NoneOverdue(w1)
    decreases Work(w.conns, w.now, w.timers)
  {
    if Due(w) {
      var f := fails != [] && fails[0];
      TakeTimerOk(cfg, w, f);
      TakeTimerLess(cfg, w, f);
      TimerPassSettles(cfg, TakeTimer(cfg, w, f).0, if fails == [] then [] else fails[1..]);
    } else {
      forall i | 0 <= i < |w.timers|
        ensures w.timers[i].at > w.now
      {
        assert i > 0 ==> Before(w.timers[0], w.timers[i]);
      }
    }
  }
}
