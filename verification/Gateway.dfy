/**
 The two-thread gateway as one step system: thread A (WsLoop), thread B (the
 inference pool) and the two FIFO channels between them
 (services/rust-sync/src/main.rs, session.rs and inference.rs).

 A step is one handler of one thread. Each handler touches the channels at most
 once, so interleaving whole handlers loses no behaviour. The events choose the
 interleaving and everything the environment decides: messages, time, socket
 results, failing writes and dials.
 */
module Gateway {
  import opened Octets
  import opened Stub
  import opened Http
  import opened Ranges
  import opened Inference
  import opened Session
  import opened WsLoop

  /** Everything fixed for a run. */
  datatype World = World(cfg: Config, peer: Peer)

  /** `gone` keeps the last state of every closed connection. */
  datatype State = State(ws: Ws, cmds: seq<Cmd>, pool: Pool, dones: seq<Done>, gone: map<nat, Conn>)

  datatype Event =
    // thread A
    | Elapse(ms: nat)
    | Accept(registered: bool, delay: nat, phase: nat)
    | Receive(id: nat, message: Message, delay: nat)
    | Break(id: nat)
    | Result(fails: bool)
    | Tick(fails: bool)
    | Closing
    // thread B
    | Ready(idx: nat, writable: bool, io: Io, dialOk: bool)
    | Command(dialOk: bool)

  /**
   Readiness is reported only for slots that hold an open socket, and what is
   read there is what the server sends.
   */
  ghost predicate Enabled(world: World, s: State, e: Event)
  {
    match e
    case Result(_) => s.dones != []
    case Tick(_) => Due(s.ws)
    case Closing => s.ws.closing != []
    case Ready(idx, _, io, _) =>
      idx < |s.pool.slots| && s.pool.slots[idx].sock.Some? && Legal(world.peer, s.pool.slots[idx], io)
    case Command(_) => s.cmds != []
    case _ => true
  }

  function Sent(d: Option<Done>): seq<Done>
  {
    if d.Some? then [d.value] else []
  }

  function Execute(t: Target, p: Pool, cmd: Cmd, dialOk: bool): (Pool, Option<Done>)
  {
    match cmd
    case SubmitCmd(owner, tag, request) => Submit(t, p, owner, tag, request, dialOk)
    case AbortCmd(owner) => (AbortOwner(p, owner), None)
  }

  ghost function Next(world: World, s: State, e: Event): State
    requires Enabled(world, s, e)
  {
    var cfg := world.cfg;
    match e
    case Elapse(ms) => s.(ws := s.ws.(now := s.ws.now + ms))
    case Accept(registered, delay, phase) => s.(ws := AcceptConn(cfg, s.ws, registered, s.ws.now + delay, phase))
    case Receive(id, m, delay) => s.(ws := ReadMessage(s.ws, id, m, s.ws.now + delay))
    case Break(id) => s.(ws := ConnBroken(s.ws, id))
    case Result(fails) => s.(ws := TakeResult(cfg, s.ws, s.dones[0], fails), dones := s.dones[1..])
    case Tick(fails) =>
      var (w, out) := TakeTimer(cfg, s.ws, fails);
      s.(ws := w, cmds := s.cmds + out)
    case Closing =>
      var (w, out) := Reap(s.ws);
      var id := s.ws.closing[0];
      s.(ws := w, cmds := s.cmds + out, gone := if id in s.ws.conns then s.gone[id := s.ws.conns[id]] else s.gone)
    case Ready(idx, writable, io, dialOk) =>
      var (p, d) := OnEvent(world.peer.parse, s.pool, idx, writable, io, dialOk);
      s.(pool := p, dones := s.dones + Sent(d))
    case Command(dialOk) =>
      var (p, d) := Execute(world.peer.target, s.pool, s.cmds[0], dialOk);
      s.(pool := p, cmds := s.cmds[1..], dones := s.dones + Sent(d))
  }

  function Start(poolSize: nat): State
  {
    State(START_WS, [], NewPool(poolSize), [], map[])
  }

  /** The states of a run: `es[i]` takes `ss[i]` to `ss[i + 1]`. */
  ghost predicate IsRun(world: World, poolSize: nat, ss: seq<State>, es: seq<Event>)
  {
    && |ss| == |es| + 1
    && ss[0] == Start(poolSize)
    && (forall i :: 0 <= i < |es| ==> Enabled(world, ss[i], es[i]) && ss[i + 1] == Next(world, ss[i], es[i]))
  }

  // ------------------------------------------------------------------ invariant

  /** The commands for one owner, in queue order. */
  function For(cmds: seq<Cmd>, o: nat): seq<Cmd>
    decreases |cmds|
  {
    if cmds == [] then []
    else For(cmds[..|cmds| - 1], o) + (if cmds[|cmds| - 1].owner == o then [cmds[|cmds| - 1]] else [])
  }

  /** The tag of the batch connection `o` is waiting for; None also when it is closed. */
  function PendingTag(w: Ws, o: nat): Option<nat>
  {
    if o in w.conns && w.conns[o].pending.Some? then Some(w.conns[o].pending.value.batch.Tag()) else None
  }

  /** The request the pending batch stands for: its frames, concatenated. */
  ghost function PendingRequest(world: World, c: Conn): Request
    requires c.pending.Some? && ConnOk(c)
  {
    assert c.flushed[|c.flushed| - 1] == c.pending.value.batch.range;
    Request(Audio(c, c.pending.value.batch.range), world.cfg.passes)
  }

  ghost predicate Owns(p: Pool, i: int, o: nat)
  {
    0 <= i < |p.slots| && p.slots[i].owner == Some(o)
  }

  ghost predicate Reports(dones: seq<Done>, k: int, o: nat, tag: nat)
  {
    0 <= k < |dones| && dones[k].owner == o && dones[k].tag == tag
  }

  /** A result of `o` for `tag` is under way. */
  ghost predicate Reported(dones: seq<Done>, o: nat, tag: nat)
  {
    exists k :: Reports(dones, k, o, tag)
  }

  /** Commands of one owner alternate, and the tags submitted grow. */
  ghost predicate QueueOk(q: seq<Cmd>)
  {
    && (forall i, j :: 0 <= i < j < |q| && j == i + 1 ==> q[i].SubmitCmd? != q[j].SubmitCmd?)
    && (forall i, j :: 0 <= i < j < |q| && q[i].SubmitCmd? && q[j].SubmitCmd? ==> q[i].tag < q[j].tag)
  }

  /**
   The hand-over of owner `o`, across the command queue `q`, the slots, the
   results under way and the connection's pending batch.
   */
  ghost predicate OwnerOk(q: seq<Cmd>, p: Pool, dones: seq<Done>, o: nat, pending: Option<nat>)
  {
    && QueueOk(q)
    // the last command says whether a batch is pending
    && (q != [] ==> pending == if q[|q| - 1].SubmitCmd? then Some(q[|q| - 1].tag) else None)
    // one slot at most
    && (forall i, j :: Owns(p, i, o) && Owns(p, j, o) ==> i == j)
    // a held slot serves the pending batch, or its abort is the next command
    && (forall i :: Owns(p, i, o) ==>
          if q == [] then pending == Some(p.slots[i].tag) else q[0].AbortCmd?)
    && (forall i, j :: Owns(p, i, o) && 0 <= j < |q| && q[j].SubmitCmd? ==> p.slots[i].tag < q[j].tag)
    // the pending batch's result is under way only when nothing else of it is
    && (pending.Some? && Reported(dones, o, pending.value) ==> q == [] && forall i :: !Owns(p, i, o))
    // and a pending batch is never lost
    && (pending.Some? && q == [] && !Reported(dones, o, pending.value) ==> exists i :: Owns(p, i, o))
  }

  /** No tag seen for `o` is beyond `f`, the newest frame it has flushed. */
  ghost predicate TagsWithin(cmds: seq<Cmd>, p: Pool, dones: seq<Done>, o: nat, f: int)
  {
    && (forall j :: 0 <= j < |cmds| && cmds[j].SubmitCmd? && cmds[j].owner == o ==> cmds[j].tag <= f)
    && (forall i :: Owns(p, i, o) ==> p.slots[i].tag <= f)
    && (forall k :: 0 <= k < |dones| && dones[k].owner == o ==> dones[k].tag <= f)
  }

  /** Ids in use have been given out. */
  ghost predicate IdsOk(s: State)
  {
    && (forall j :: 0 <= j < |s.cmds| ==> s.cmds[j].owner < s.ws.nextId)
    && (forall i :: 0 <= i < |s.pool.slots| && s.pool.slots[i].owner.Some? ==>
          s.pool.slots[i].owner.value < s.ws.nextId)
    && (forall k :: 0 <= k < |s.dones| ==> s.dones[k].owner < s.ws.nextId)
    && (forall o :: o in s.gone ==> o < s.ws.nextId)
    && s.gone.Keys !! s.ws.conns.Keys
  }

  /** Whatever carries the tag of `o`'s batch carries its request, or the answer to it. */
  ghost predicate Carries(world: World, cmds: seq<Cmd>, p: Pool, dones: seq<Done>, o: nat, tag: nat, r: Request)
  {
    && (forall j :: 0 <= j < |cmds| && cmds[j].SubmitCmd? && cmds[j].owner == o && cmds[j].tag == tag ==>
          cmds[j].request == r)
    && (forall i :: Owns(p, i, o) && p.slots[i].tag == tag ==> p.slots[i].request == r)
    && (GoodPeer(world.peer) ==>
          forall k :: Reports(dones, k, o, tag) && dones[k].reply.Ok? ==>
            dones[k].reply.infer == ComputeStub(r.body, r.passes))
  }

  /** A partial reports the stub's answer to exactly the frames of its range. */
  ghost predicate Truthful(world: World, c: Conn, r: Response)
  {
    r.Partial? ==>
      && WellFormed(r.range) && r.range.newest <= |c.received|
      && r.infer == ComputeStub(Audio(c, r.range), world.cfg.passes)
      && r.passes == world.cfg.passes && r.modelDelayMs == world.cfg.modelDelayMs
  }

  ghost predicate AllTruthful(world: World, c: Conn)
  {
    GoodPeer(world.peer) ==> forall i :: 0 <= i < |c.sent| ==> Truthful(world, c, c.sent[i])
  }

  /** One open connection, together with everything under way for it. */
  ghost predicate ConnInv(world: World, c: Conn, o: nat, cmds: seq<Cmd>, p: Pool, dones: seq<Done>)
  {
    && ConnOk(c) && AllTruthful(world, c)
    && TagsWithin(cmds, p, dones, o, FlushedTo(c))
    && (c.pending.Some? ==> Carries(world, cmds, p, dones, o, c.pending.value.batch.Tag(), PendingRequest(world, c)))
  }

  ghost predicate ConnsOk(world: World, s: State)
  {
    forall o :: o in s.ws.conns ==> ConnInv(world, s.ws.conns[o], o, s.cmds, s.pool, s.dones)
  }

  ghost predicate GoneOk(world: World, gone: map<nat, Conn>)
  {
    forall o :: o in gone ==> ConnOk(gone[o]) && AllTruthful(world, gone[o])
  }

  ghost predicate OwnersOk(s: State)
  {
    forall o: nat :: OwnerOk(For(s.cmds, o), s.pool, s.dones, o, PendingTag(s.ws, o))
  }

  ghost predicate Inv(world: World, s: State)
  {
    && TimersOk(s.ws) && PoolInv(world.peer, s.pool) && IdsOk(s)
    && ConnsOk(world, s) && GoneOk(world, s.gone) && OwnersOk(s)
  }
}
