/**
 The Bun gateway's bounded outbox
 (services/typescript-bun/src/session.ts:272-352): a queue of messages, callers
 suspended in `enqueue` until there is room, and back-pressure from the socket.

 Between two awaits the code runs alone, so a run is a sequence of whole
 handlers: an enqueue, the resumption of any woken caller, a drain, a close. What
 the k-th `send` returns is `socket(k)`; what `getBufferedAmount` returns is part
 of each event.
 */
module Outbox {

  const CLOSE_INTERNAL_ERROR := 1011

  datatype Wire = Sent(text: string, status: int) | CloseFrame(code: int)

  /**
   `waiters` are the callers suspended on a promise, named by the message each
   carries; `woken` are those whose promise is resolved and who have yet to run.
   The last fields are the history: every message offered, those pushed on the
   queue, those the socket took, those given up because the outbox had closed, and
   every call made on the socket.
   */
  datatype Box = Box(
    queue: seq<string>,
    waiters: seq<string>,
    woken: seq<string>,
    closed: bool,
    back: nat,
    offered: multiset<string>,
    admitted: seq<string>,
    delivered: seq<string>,
    abandoned: multiset<string>,
    wire: seq<Wire>)

  function New(): Box
  {
    Box([], [], [], false, 0, multiset{}, [], [], multiset{}, [])
  }

  function Occupied(b: Box): nat
  {
    |b.queue| + b.back
  }

  function ResolveSpace(b: Box): Box
  {
    if b.waiters == [] then b
    else b.(waiters := b.waiters[1..], woken := b.woken + [b.waiters[0]])
  }

  function Close(b: Box): Box
  {
    b.(closed := true, queue := [], back := 0, waiters := [], woken := b.woken + b.waiters)
  }

  /** `send` returned 0: the connection ends. */
  function Drop(b: Box): Box
    requires b.queue != []
  {
    var c := Close(b.(wire := b.wire + [Sent(b.queue[0], 0)]));
    c.(wire := c.wire + [CloseFrame(CLOSE_INTERNAL_ERROR)])
  }

  /** The message taken moves from the queue to the delivered ones. */
  function Shifted(b: Box, status: int): Box
    requires b.queue != []
  {
    b.(queue := b.queue[1..], delivered := b.delivered + [b.queue[0]],
       wire := b.wire + [Sent(b.queue[0], status)], back := if status < 0 then 1 else b.back)
  }

  /** The socket took the first message, and reports back-pressure when `status` is negative. */
  function Shift(b: Box, status: int): Box
    requires b.queue != []
  {
    ResolveSpace(Shifted(b, status))
  }

  function SendLoop(b: Box, socket: nat -> int): Box
    decreases |b.queue|
  {
    if b.queue == [] then b
    else
      var status := socket(|b.wire|);
      if status == 0 then Drop(b)
      else if status < 0 then Shift(b, status)
      else SendLoop(Shift(b, status), socket)
  }

  function Drain(b: Box, socket: nat -> int, amount: nat): Box
  {
    if b.closed then b
    else if b.back > 0 then
      if amount > 0 then b else SendLoop(ResolveSpace(b.(back := 0)), socket)
    else SendLoop(b, socket)
  }

  function Pushed(b: Box, m: string): Box
  {
    b.(queue := b.queue + [m], admitted := b.admitted + [m])
  }

  /** One turn of `enqueue`, from its capacity check to its next await or its return. */
  function Attempt(b: Box, depth: nat, socket: nat -> int, m: string, amount: nat): Box
  {
    if b.closed then b.(abandoned := b.abandoned + multiset{m})
    else if Occupied(b) >= depth then b.(waiters := b.waiters + [m])
    else Drain(Pushed(b, m), socket, amount)
  }

  datatype Event =
    | Enqueue(text: string, amount: nat)
    | Resume(which: nat, amount: nat)
    | Drained(amount: nat)
    | Closed

  predicate Enabled(b: Box, e: Event)
  {
    e.Resume? ==> e.which < |b.woken|
  }

  function Without(s: seq<string>, i: nat): seq<string>
    requires i < |s|
  {
    s[..i] + s[i + 1..]
  }

  function Next(b: Box, depth: nat, socket: nat -> int, e: Event): Box
    requires Enabled(b, e)
  {
    match e
    case Enqueue(m, amount) => Attempt(b.(offered := b.offered + multiset{m}), depth, socket, m, amount)
    case Resume(i, amount) => Attempt(b.(woken := Without(b.woken, i)), depth, socket, b.woken[i], amount)
    case Drained(amount) => Drain(b, socket, amount)
    case Closed => Close(b)
  }

  predicate IsRun(b: Box, depth: nat, socket: nat -> int, es: seq<Event>)
    decreases |es|
  {
    es != [] ==> Enabled(b, es[0]) && IsRun(Next(b, depth, socket, es[0]), depth, socket, es[1..])
  }

  function Run(b: Box, depth: nat, socket: nat -> int, es: seq<Event>): Box
    requires IsRun(b, depth, socket, es)
    decreases |es|
  {
    if es == [] then b else Run(Next(b, depth, socket, es[0]), depth, socket, es[1..])
  }

  // ------------------------------------------------------------------- invariant

  /** Only sends the socket took. */
  predicate Clean(wire: seq<Wire>)
  {
    forall i :: 0 <= i < |wire| ==> wire[i].Sent? && wire[i].status != 0
  }

  /** What the socket took, in order. */
  function Taken(wire: seq<Wire>): seq<string>
    requires Clean(wire)
  {
    seq(|wire|, i requires 0 <= i < |wire| => wire[i].text)
  }

  /** A send that was dropped, and the close that followed it, end the log. */
  predicate EndsDropped(wire: seq<Wire>)
  {
    && |wire| >= 2
    && wire[|wire| - 2].Sent? && wire[|wire| - 2].status == 0
    && wire[|wire| - 1] == CloseFrame(CLOSE_INTERNAL_ERROR)
  }

  predicate WireOk(b: Box)
  {
    if b.closed && EndsDropped(b.wire) then
      Clean(b.wire[..|b.wire| - 2]) && b.delivered == Taken(b.wire[..|b.wire| - 2])
    else Clean(b.wire) && b.delivered == Taken(b.wire)
  }

  /** Every message offered is admitted, suspended, about to run, or given up; giving up needs a close. */
  predicate Conserved(b: Box)
  {
    && b.offered == multiset(b.admitted) + multiset(b.waiters) + multiset(b.woken) + b.abandoned
    && (!b.closed ==> b.abandoned == multiset{})
  }

  predicate Ordered(b: Box)
  {
    if b.closed then b.queue == [] && b.back == 0 && b.waiters == [] && b.delivered <= b.admitted
    else b.admitted == b.delivered + b.queue
  }

  /** Whoever waits does so because the outbox, counting those about to run, is full. */
  predicate NoLostWakeup(b: Box, depth: nat)
  {
    !b.closed && b.waiters != [] ==> Occupied(b) + |b.woken| >= depth
  }

  predicate Moving(b: Box, depth: nat)
  {
    && Occupied(b) <= depth && b.back <= 1
    && Conserved(b) && Ordered(b) && NoLostWakeup(b, depth) && WireOk(b)
  }

  /** Between handlers a non-empty queue means the socket pushed back. */
  predicate Inv(b: Box, depth: nat)
  {
    Moving(b, depth) && (b.queue != [] ==> b.back > 0)
  }

  lemma SpaceKeeps(b: Box)
    ensures var r := ResolveSpace(b);
            && (Conserved(b) ==> Conserved(r))
            && r == b.(waiters := r.waiters, woken := r.woken)
            && (r.waiters != [] ==> |r.woken| == |b.woken| + 1)
            && (b.waiters != [] ==> r.woken != [])
            && |r.waiters| + |r.woken| == |b.waiters| + |b.woken|
  {
    if b.waiters != [] {
      assert b.waiters == [b.waiters[0]] + b.waiters[1..];
    }
  }

  lemma ShiftedOrdered(b: Box, status: int)
    requires Ordered(b) && WireOk(b) && !b.closed && b.queue != [] && status != 0
    ensures Ordered(Shifted(b, status)) && WireOk(Shifted(b, status))
  {
    var mid := Shifted(b, status);
    assert b.queue == [b.queue[0]] + b.queue[1..];
    assert mid.admitted == mid.delivered + mid.queue;
    assert Taken(mid.wire) == Taken(b.wire) + [b.queue[0]];
  }

  lemma ShiftKeeps(b: Box, depth: nat, status: int)
    requires Moving(b, depth) && !b.closed && b.back == 0 && b.queue != [] && status != 0
    ensures Moving(Shift(b, status), depth) && !Shift(b, status).closed
    ensures Shift(b, status).back == if status < 0 then 1 else 0
    ensures var r := Shift(b, status);
            |r.waiters| + |r.woken| == |b.waiters| + |b.woken| && |r.queue| == |b.queue| - 1
  {
    ShiftedOrdered(b, status);
    SpaceKeeps(Shifted(b, status));
  }

  lemma CloseKeeps(b: Box, depth: nat)
    requires Moving(b, depth)
    ensures Inv(Close(b), depth)
  {
    assert !b.closed ==> b.delivered <= b.admitted;
    assert multiset(b.woken + b.waiters) == multiset(b.woken) + multiset(b.waiters);
    assert b.closed ==> b.woken + b.waiters == b.woken;
  }

  lemma DropKeeps(b: Box, depth: nat)
    requires Moving(b, depth) && !b.closed && b.queue != []
    ensures Inv(Drop(b), depth) && Drop(b).closed && EndsDropped(Drop(b).wire)
  {
    CloseKeeps(b, depth);
    var d := Drop(b);
    assert d.wire[..|d.wire| - 2] == b.wire;
    assert Close(b).(wire := d.wire) == d;
  }

  lemma {:induction false} SendLoopKeeps(b: Box, depth: nat, socket: nat -> int)
    requires Moving(b, depth) && !b.closed && b.back == 0
    ensures Inv(SendLoop(b, socket), depth)
    decreases |b.queue|
  {
    if b.queue != [] {
      var status := socket(|b.wire|);
      if status == 0 {
        DropKeeps(b, depth);
      } else {
        ShiftKeeps(b, depth, status);
        if status > 0 {
          SendLoopKeeps(Shift(b, status), depth, socket);
        }
      }
    }
  }

  /** A drain of a state whose queue may just have grown. */
  lemma DrainKeeps(b: Box, depth: nat, socket: nat -> int, amount: nat)
    requires Moving(b, depth)
    ensures Inv(Drain(b, socket, amount), depth)
  {
    if !b.closed {
      if b.back == 0 {
        SendLoopKeeps(b, depth, socket);
      } else if amount == 0 {
        SpaceKeeps(b.(back := 0));
        SendLoopKeeps(ResolveSpace(b.(back := 0)), depth, socket);
      }
    }
  }

  /** The caller of `m` is running: it is counted nowhere, but its slot may be owed to it. */
  predicate Running(b: Box, depth: nat, m: string)
  {
    && Occupied(b) <= depth && b.back <= 1
    && b.offered == multiset(b.admitted) + multiset(b.waiters) + multiset(b.woken) + b.abandoned + multiset{m}
    && (!b.closed ==> b.abandoned == multiset{})
    && Ordered(b) && WireOk(b)
    && (!b.closed && b.waiters != [] ==> Occupied(b) + |b.woken| + 1 >= depth)
    && (b.queue != [] ==> b.back > 0)
  }

  lemma PushConserves(b: Box, depth: nat, m: string)
    requires Running(b, depth, m) && !b.closed
    ensures Conserved(Pushed(b, m))
  {
    assert multiset(b.admitted + [m]) == multiset(b.admitted) + multiset{m};
  }

  lemma PushKeeps(b: Box, depth: nat, m: string)
    requires Running(b, depth, m) && !b.closed && Occupied(b) < depth
    ensures Moving(Pushed(b, m), depth)
  {
    assert Ordered(Pushed(b, m)) by { assert b.delivered + b.queue + [m] == b.delivered + (b.queue + [m]); }
    assert Conserved(Pushed(b, m)) by { PushConserves(b, depth, m); }
  }

  lemma ParkKeeps(b: Box, depth: nat, m: string)
    requires Running(b, depth, m) && !b.closed && Occupied(b) >= depth
    ensures Inv(b.(waiters := b.waiters + [m]), depth)
  {
    assert multiset(b.waiters + [m]) == multiset(b.waiters) + multiset{m};
  }

  lemma AttemptKeeps(b: Box, depth: nat, socket: nat -> int, m: string, amount: nat)
    requires Running(b, depth, m)
    ensures Inv(Attempt(b, depth, socket, m, amount), depth)
  {
    if b.closed {
    } else if Occupied(b) >= depth {
      ParkKeeps(b, depth, m);
    } else {
      PushKeeps(b, depth, m);
      DrainKeeps(Pushed(b, m), depth, socket, amount);
    }
  }

  lemma WithoutMultiset(s: seq<string>, i: nat)
    requires i < |s|
    ensures multiset(s) == multiset(Without(s, i)) + multiset{s[i]}
  {
    assert s == s[..i] + [s[i]] + s[i + 1..];
  }

  /** Every handler keeps the invariant. */
  lemma NextKeeps(b: Box, depth: nat, socket: nat -> int, e: Event)
    requires Inv(b, depth) && Enabled(b, e)
    ensures Inv(Next(b, depth, socket, e), depth)
  {
    match e
    case Enqueue(m, amount) =>
      AttemptKeeps(b.(offered := b.offered + multiset{m}), depth, socket, m, amount);
    case Resume(i, amount) =>
      WithoutMultiset(b.woken, i);
      AttemptKeeps(b.(woken := Without(b.woken, i)), depth, socket, b.woken[i], amount);
    case Drained(amount) =>
      DrainKeeps(b, depth, socket, amount);
    case Closed =>
      CloseKeeps(b, depth);
  }

  lemma {:induction false} RunKeeps(b: Box, depth: nat, socket: nat -> int, es: seq<Event>)
    requires Inv(b, depth) && IsRun(b, depth, socket, es)
    ensures Inv(Run(b, depth, socket, es), depth)
    decreases |es|
  {
    if es != [] {
      NextKeeps(b, depth, socket, es[0]);
      RunKeeps(Next(b, depth, socket, es[0]), depth, socket, es[1..]);
    }
  }

  // -------------------------------------------------------------------- theorems

  /**
   Over every run from an empty outbox: occupancy never exceeds the depth, what
   the socket took is a prefix of what was admitted, nothing follows a dropped
   send but the close it causes, a non-empty queue at rest means back-pressure, no
   message is lost or duplicated short of a close, and no wakeup is lost.
   */
  lemma EveryRun(depth: nat, socket: nat -> int, es: seq<Event>)
    requires IsRun(New(), depth, socket, es)
    ensures var b := Run(New(), depth, socket, es);
            && |b.queue| + b.back <= depth
            && b.delivered <= b.admitted
            && (!b.closed ==> b.admitted == b.delivered + b.queue)
            && WireOk(b)
            && (b.queue != [] ==> b.back > 0)
            && (!b.closed ==> b.offered == multiset(b.admitted) + multiset(b.waiters) + multiset(b.woken))
            && (!b.closed && b.waiters != [] ==> |b.queue| + b.back + |b.woken| >= depth)
  {
    assert Taken([]) == [];
    RunKeeps(New(), depth, socket, es);
  }

  /** After a close, by the owner or by a drop, nothing is sent, admitted or delivered any more. */
  lemma {:induction false} SilentAfterClose(b: Box, depth: nat, socket: nat -> int, es: seq<Event>)
    requires b.closed && IsRun(b, depth, socket, es)
    ensures var r := Run(b, depth, socket, es);
            r.closed && r.wire == b.wire && r.admitted == b.admitted && r.delivered == b.delivered
    decreases |es|
  {
    if es != [] {
      SilentAfterClose(Next(b, depth, socket, es[0]), depth, socket, es[1..]);
    }
  }

  // ------------------------------------------------------------------- liveness

  /** Messages still on their way. */
  function Left(b: Box): nat
  {
    |b.queue| + |b.waiters| + |b.woken|
  }

  function Suspended(b: Box): nat
  {
    |b.waiters| + |b.woken|
  }

  lemma {:induction false} SendLoopLess(b: Box, depth: nat, socket: nat -> int)
    requires Moving(b, depth) && !b.closed && b.back == 0
    ensures var r := SendLoop(b, socket);
            r.closed || (Suspended(r) == Suspended(b) && Left(r) <= Left(b) && (b.queue != [] ==> Left(r) < Left(b)))
    ensures b.queue == [] ==> SendLoop(b, socket) == b
    decreases |b.queue|
  {
    if b.queue != [] && socket(|b.wire|) != 0 {
      ShiftKeeps(b, depth, socket(|b.wire|));
      if socket(|b.wire|) > 0 {
        SendLoopLess(Shift(b, socket(|b.wire|)), depth, socket);
      }
    }
  }

  /** A woken caller runs, or the socket reports that it has drained after pushing back. */
  predicate Productive(b: Box, e: Event)
  {
    (e.Resume? && e.which < |b.woken|) || (e == Drained(0) && b.back > 0)
  }

  /** While messages are on their way some such step is always possible: no deadlock. */
  lemma CanMove(b: Box, depth: nat)
    requires Inv(b, depth) && depth > 0 && !b.closed && Left(b) > 0
    ensures Productive(b, if b.woken != [] then Resume(0, 0) else Drained(0))
  {
  }

  lemma DrainLess(b: Box, depth: nat, socket: nat -> int)
    requires Inv(b, depth) && !b.closed && b.back > 0
    ensures var r := Drain(b, socket, 0);
            r.closed || (Suspended(r) == Suspended(b) && (Left(r) < Left(b) || (Left(r) == Left(b) && r.back < b.back)))
  {
    var c := ResolveSpace(b.(back := 0));
    SpaceKeeps(b.(back := 0));
    SendLoopLess(c, depth, socket);
  }

  lemma ResumeLess(b: Box, depth: nat, socket: nat -> int, i: nat, amount: nat)
    requires Inv(b, depth) && !b.closed && i < |b.woken|
    ensures var r := Next(b, depth, socket, Resume(i, amount));
            || r.closed
            || (Left(r) <= Left(b) && Suspended(r) < Suspended(b))
            || (Left(r) == Left(b) && Suspended(r) == Suspended(b) && r.back == b.back && |r.woken| < |b.woken|)
  {
    var m, c := b.woken[i], b.(woken := Without(b.woken, i));
    WithoutMultiset(b.woken, i);
    if Occupied(c) < depth {
      PushKeeps(c, depth, m);
      PushedLess(Pushed(c, m), depth, socket, amount);
    }
  }

  lemma PushedLess(p: Box, depth: nat, socket: nat -> int, amount: nat)
    requires Moving(p, depth) && !p.closed
    ensures var r := Drain(p, socket, amount);
            r.closed || (Left(r) <= Left(p) && Suspended(r) == Suspended(p))
  {
    if p.back == 0 {
      SendLoopLess(p, depth, socket);
    } else if amount == 0 {
      SpaceKeeps(p.(back := 0));
      SendLoopLess(ResolveSpace(p.(back := 0)), depth, socket);
    }
  }

  /** A schedule that, while messages are on their way, always picks a productive step, whichever. */
  ghost predicate Schedules(pick: Box -> Event, depth: nat)
  {
    forall b :: Inv(b, depth) && !b.closed && Left(b) > 0 ==> Productive(b, pick(b))
  }

  lemma PickedLess(b: Box, depth: nat, socket: nat -> int, e: Event)
    requires Inv(b, depth) && !b.closed && Productive(b, e)
    ensures var r := Next(b, depth, socket, e);
            || r.closed || Left(r) < Left(b)
            || (Left(r) == Left(b) && (|| Suspended(r) < Suspended(b)
                                       || (Suspended(r) == Suspended(b) && r.back < b.back)
                                       || (Suspended(r) == Suspended(b) && r.back == b.back && |r.woken| < |b.woken|)))
  {
    if e.Resume? {
      ResumeLess(b, depth, socket, e.which, e.amount);
    } else {
      DrainLess(b, depth, socket);
    }
  }

  /** The runtime under such a schedule, until nothing is on its way or the outbox is closed. */
  ghost function Settle(b: Box, depth: nat, socket: nat -> int, pick: Box -> Event): Box
    requires Inv(b, depth) && Schedules(pick, depth)
    decreases !b.closed, Left(b), Suspended(b), b.back, |b.woken|
  {
    if b.closed || Left(b) == 0 then b
    else
      NextKeeps(b, depth, socket, pick(b));
      PickedLess(b, depth, socket, pick(b));
      Settle(Next(b, depth, socket, pick(b)), depth, socket, pick)
  }

  /**
   No caller is stuck: from any reachable state, in whatever order woken callers
   run and the socket drains, either a send is dropped and the outbox closes, or
   every message ever offered is delivered, exactly once.
   */
  lemma {:induction false} EverythingSettles(b: Box, depth: nat, socket: nat -> int, pick: Box -> Event)
    requires Inv(b, depth) && Schedules(pick, depth)
    ensures var r := Settle(b, depth, socket, pick);
            r.offered == b.offered && (r.closed || multiset(r.delivered) == b.offered)
    decreases !b.closed, Left(b), Suspended(b), b.back, |b.woken|
  {
    if b.closed {
    } else if Left(b) == 0 {
      assert b.admitted == b.delivered;
    } else {
      NextKeeps(b, depth, socket, pick(b));
      PickedLess(b, depth, socket, pick(b));
      OfferedSame(b, depth, socket, pick(b));
      EverythingSettles(Next(b, depth, socket, pick(b)), depth, socket, pick);
    }
  }

  lemma {:induction false} SendLoopOffered(b: Box, socket: nat -> int)
    ensures SendLoop(b, socket).offered == b.offered
    decreases |b.queue|
  {
    if b.queue != [] && socket(|b.wire|) > 0 {
      SendLoopOffered(Shift(b, socket(|b.wire|)), socket);
    }
  }

  lemma OfferedSame(b: Box, depth: nat, socket: nat -> int, e: Event)
    requires Enabled(b, e) && !e.Enqueue?
    ensures Next(b, depth, socket, e).offered == b.offered
  {
    var c := if e.Resume? then b.(woken := Without(b.woken, e.which)) else b;
    var p := if e.Resume? then Pushed(c, b.woken[e.which]) else c;
    SendLoopOffered(p, socket);
    SendLoopOffered(ResolveSpace(p.(back := 0)), socket);
  }

  // ------------------------------------------------------------------ the object

  class BoundedOutbox {
    const depth: nat
    const socket: nat -> int
    var queue: seq<string>
    var waiters: seq<string>
    var woken: seq<string>
    var closed: bool
    var pendingBackpressure: nat
    var wire: seq<Wire>
    ghost var offered: multiset<string>
    ghost var admitted: seq<string>
    ghost var delivered: seq<string>
    ghost var abandoned: multiset<string>

    ghost function View(): Box
      reads this
    {
      Box(queue, waiters, woken, closed, pendingBackpressure, offered, admitted, delivered, abandoned, wire)
    }

    constructor (socket: nat -> int, depth: nat)
      ensures View() == New() && this.depth == depth && this.socket == socket
    {
      this.depth, this.socket := depth, socket;
      queue, waiters, woken, closed, pendingBackpressure, wire := [], [], [], false, 0, [];
      offered, admitted, delivered, abandoned := multiset{}, [], [], multiset{};
    }

    method WakeOne()
      modifies this
      ensures View() == ResolveSpace(old(View()))
    {
      if waiters != [] {
        woken := woken + [waiters[0]];
        waiters := waiters[1..];
      }
    }

    method CloseBox()
      modifies this
      ensures View() == Close(old(View()))
    {
      closed := true;
      queue := [];
      pendingBackpressure := 0;
      ghost var all := woken + waiters;
      while waiters != []
        invariant View() == Close(old(View())).(waiters := waiters, woken := woken)
        invariant woken + waiters == all
        decreases |waiters|
      {
        woken := woken + [waiters[0]];
        waiters := waiters[1..];
      }
    }

    method SendAll()
      requires !closed
      modifies this
      ensures View() == SendLoop(old(View()), socket)
    {
      while queue != []
        invariant !closed && SendLoop(View(), socket) == SendLoop(old(View()), socket)
        decreases |queue|
      {
        ghost var before := View();
        var status := socket(|wire|);
        if status == 0 {
          wire := wire + [Sent(queue[0], status)];
          CloseBox();
          wire := wire + [CloseFrame(CLOSE_INTERNAL_ERROR)];
          assert View() == Drop(before);
          return;
        }
        Take(status);
        if status < 0 {
          return;
        }
      }
    }

    /** The socket took the first message. */
    method Take(status: int)
      requires queue != []
      modifies this
      ensures View() == Shift(old(View()), status)
    {
      wire := wire + [Sent(queue[0], status)];
      delivered := delivered + [queue[0]];
      queue := queue[1..];
      if status < 0 {
        pendingBackpressure := 1;
      }
      WakeOne();
    }

    method DrainQueue(amount: nat)
      modifies this
      ensures View() == Drain(old(View()), socket, amount)
    {
      if closed {
        return;
      }
      if pendingBackpressure > 0 {
        if amount > 0 {
          return;
        }
        pendingBackpressure := 0;
        WakeOne();
      }
      SendAll();
    }

    /** One turn of `enqueue` for the caller carrying `m`; `parked` tells that it awaits again. */
    method TryPush(m: string, amount: nat) returns (parked: bool)
      modifies this
      ensures View() == Attempt(old(View()), depth, socket, m, amount)
      ensures parked <==> !old(closed) && old(|queue| + pendingBackpressure) >= depth
    {
      if !closed && |queue| + pendingBackpressure >= depth {
        waiters := waiters + [m];
        return true;
      }
      if closed {
        abandoned := abandoned + multiset{m};
        return false;
      }
      queue := queue + [m];
      admitted := admitted + [m];
      DrainQueue(amount);
      return false;
    }

    method Enqueue(m: string, amount: nat)
      modifies this
      ensures View() == Next(old(View()), depth, socket, Event.Enqueue(m, amount))
    {
      offered := offered + multiset{m};
      var _ := TryPush(m, amount);
    }

    method Resume(i: nat, amount: nat)
      requires i < |woken|
      modifies this
      ensures View() == Next(old(View()), depth, socket, Event.Resume(i, amount))
    {
      var m := woken[i];
      woken := woken[..i] + woken[i + 1..];
      var _ := TryPush(m, amount);
    }
  }
}
