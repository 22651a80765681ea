/** Every step of the gateway keeps its invariant, so every reachable state has it. */
module GatewayProof {
  import opened Octets
  import opened Stub
  import opened Http
  import opened Ranges
  import opened Inference
  import opened Session
  import opened WsLoop
  import opened Gateway

  // --------------------------------------------------------------- queue lemmas

  lemma ForSnoc(cmds: seq<Cmd>, c: Cmd, o: nat)
    ensures For(cmds + [c], o) == For(cmds, o) + (if c.owner == o then [c] else [])
  {
    assert (cmds + [c])[..|cmds|] == cmds;
  }

  lemma {:induction false} ForTail(cmds: seq<Cmd>, o: nat)
    requires cmds != []
    ensures cmds[0].owner == o ==>
              For(cmds, o) != [] && For(cmds, o)[0] == cmds[0] && For(cmds, o)[1..] == For(cmds[1..], o)
    ensures cmds[0].owner != o ==> For(cmds, o) == For(cmds[1..], o)
    decreases |cmds|
  {
    if |cmds| > 1 {
      var init := cmds[..|cmds| - 1];
      ForTail(init, o);
      assert init[1..] == cmds[1..][..|cmds| - 2];
    }
  }

  lemma {:induction false} ForMember(cmds: seq<Cmd>, o: nat, j: nat)
    requires j < |cmds| && cmds[j].owner == o
    ensures cmds[j] in For(cmds, o)
    decreases |cmds|
  {
    if j < |cmds| - 1 { ForMember(cmds[..|cmds| - 1], o, j); }
  }

  lemma ReportedSnoc(dones: seq<Done>, d: Done, o: nat, tag: nat)
    ensures Reported(dones + [d], o, tag) <==> Reported(dones, o, tag) || (d.owner == o && d.tag == tag)
  {
    if Reported(dones, o, tag) {
      var k :| Reports(dones, k, o, tag);
      assert Reports(dones + [d], k, o, tag);
    }
    if d.owner == o && d.tag == tag {
      assert Reports(dones + [d], |dones|, o, tag);
    }
    if Reported(dones + [d], o, tag) {
      var k :| Reports(dones + [d], k, o, tag);
      assert k < |dones| ==> Reports(dones, k, o, tag);
    }
  }

  lemma ReportedTail(dones: seq<Done>, o: nat, tag: nat)
    requires dones != []
    ensures Reported(dones, o, tag) <==> Reported(dones[1..], o, tag) || (dones[0].owner == o && dones[0].tag == tag)
  {
    if Reported(dones[1..], o, tag) {
      var k :| Reports(dones[1..], k, o, tag);
      assert Reports(dones, k + 1, o, tag);
    }
    if dones[0].owner == o && dones[0].tag == tag {
      assert Reports(dones, 0, o, tag);
    }
    if Reported(dones, o, tag) {
      var k :| Reports(dones, k, o, tag);
      assert k > 0 ==> Reports(dones[1..], k - 1, o, tag);
    }
  }

  // --------------------------------------------------- the hand-over of one owner

  /** Thread A takes a result off the channel. */
  lemma OwnerTakesResult(q: seq<Cmd>, p: Pool, dones: seq<Done>, o: nat, pending: Option<nat>)
    requires dones != [] && OwnerOk(q, p, dones, o, pending)
    ensures
      var d := dones[0];
      OwnerOk(q, p, dones[1..], o, if d.owner == o && pending == Some(d.tag) then None else pending)
  {
    if pending.Some? { ReportedTail(dones, o, pending.value); }
  }

  /** Thread B reports the slot `idx` of `d.owner` and frees it. */
  lemma OwnerFinishes(q: seq<Cmd>, p: Pool, p1: Pool, idx: nat, dones: seq<Done>, d: Done, o: nat, pending: Option<nat>)
    requires OwnerOk(q, p, dones, o, pending)
    requires OnlySlot(p, p1, idx) && idx < |p.slots| && p1.slots[idx].owner.None?
    requires p.slots[idx].owner == Some(d.owner) && p.slots[idx].tag == d.tag
    ensures OwnerOk(q, p1, dones + [d], o, pending)
  {
    if pending.Some? { ReportedSnoc(dones, d, o, pending.value); }
    assert forall i :: Owns(p1, i, o) ==> Owns(p, i, o) && p1.slots[i] == p.slots[i];
    if d.owner == o {
      assert Owns(p, idx, o);
    } else {
      assert forall i :: Owns(p, i, o) ==> Owns(p1, i, o);
    }
  }

  /** The pool changed, but no owner, tag or report of `o` did. */
  lemma OwnerFrame(q: seq<Cmd>, p: Pool, p1: Pool, dones: seq<Done>, o: nat, pending: Option<nat>)
    requires OwnerOk(q, p, dones, o, pending)
    requires forall i :: Owns(p1, i, o) <==> Owns(p, i, o)
    requires forall i :: Owns(p, i, o) && Owns(p1, i, o) ==> p1.slots[i].tag == p.slots[i].tag
    ensures OwnerOk(q, p1, dones, o, pending)
  {
  }

  /** Thread B starts the submitted request in slot `idx`. */
  lemma OwnerStarts(q: seq<Cmd>, p: Pool, p1: Pool, idx: nat, dones: seq<Done>, o: nat, pending: Option<nat>)
    requires OwnerOk(q, p, dones, o, pending) && q != [] && q[0].SubmitCmd?
    requires OnlySlot(p, p1, idx) && idx < |p.slots| && p.slots[idx].owner.None?
    requires p1.slots[idx].owner == Some(o) && p1.slots[idx].tag == q[0].tag
    ensures OwnerOk(q[1..], p1, dones, o, pending)
  {
    assert forall i :: !Owns(p, i, o);
    assert forall i :: Owns(p1, i, o) ==> i == idx;
    assert Owns(p1, idx, o);
    assert |q| > 1 ==> q[0].SubmitCmd? != q[1].SubmitCmd?;
  }

  /** Thread B cannot start the submitted request and reports a reset. */
  lemma OwnerRefused(q: seq<Cmd>, p: Pool, p1: Pool, dones: seq<Done>, d: Done, o: nat, pending: Option<nat>)
    requires OwnerOk(q, p, dones, o, pending) && q != [] && q[0].SubmitCmd? && d.owner == o && d.tag == q[0].tag
    requires forall i :: Owns(p1, i, o) <==> Owns(p, i, o)
    ensures OwnerOk(q[1..], p1, dones + [d], o, pending)
  {
    assert forall i :: !Owns(p, i, o);
    if pending.Some? { ReportedSnoc(dones, d, o, pending.value); }
    assert |q| > 1 ==> q[0].SubmitCmd? != q[1].SubmitCmd?;
  }

  /** Thread B executes an abort: the one slot of `o`, if any, is given up. */
  lemma OwnerAborted(q: seq<Cmd>, p: Pool, p1: Pool, dones: seq<Done>, o: nat, pending: Option<nat>)
    requires OwnerOk(q, p, dones, o, pending) && q != [] && q[0].AbortCmd?
    requires forall i :: !Owns(p1, i, o)
    ensures OwnerOk(q[1..], p1, dones, o, pending)
  {
    assert |q| > 1 ==> q[0].SubmitCmd? != q[1].SubmitCmd?;
  }

  // ------------------------------------------------------- all owners, step by step

  lemma {:induction false} ForTagsBelow(cmds: seq<Cmd>, o: nat, f: int)
    requires forall j :: 0 <= j < |cmds| && cmds[j].SubmitCmd? && cmds[j].owner == o ==> cmds[j].tag <= f
    ensures forall j :: 0 <= j < |For(cmds, o)| && For(cmds, o)[j].SubmitCmd? ==> For(cmds, o)[j].tag <= f
    decreases |cmds|
  {
    if cmds != [] { ForTagsBelow(cmds[..|cmds| - 1], o, f); }
  }

  /** A flush: the pending batch is new, so its tag is beyond every tag seen. */
  lemma OwnerFlush(q: seq<Cmd>, p: Pool, dones: seq<Done>, o: nat, tag: nat, request: Request)
    requires OwnerOk(q, p, dones, o, None)
    requires !Reported(dones, o, tag)
    requires forall i :: Owns(p, i, o) ==> p.slots[i].tag < tag
    requires forall j :: 0 <= j < |q| && q[j].SubmitCmd? ==> q[j].tag < tag
    ensures OwnerOk(q + [SubmitCmd(o, tag, request)], p, dones, o, Some(tag))
  {
  }

  /** A timeout or close of a pending batch: its abort is queued behind its submit. */
  lemma OwnerGiveUp(q: seq<Cmd>, p: Pool, dones: seq<Done>, o: nat, tag: nat)
    requires OwnerOk(q, p, dones, o, Some(tag))
    ensures OwnerOk(q + [AbortCmd(o)], p, dones, o, None)
  {
  }

  lemma FlushQueued(s: State, id: nat, b: Batch, request: Request, o: nat)
    requires id in s.ws.conns && s.ws.conns[id].pending.None?
    requires TagsWithin(s.cmds, s.pool, s.dones, id, FlushedTo(s.ws.conns[id]))
    requires b.Tag() == FlushedTo(s.ws.conns[id]) + 1
    requires OwnerOk(For(s.cmds, o), s.pool, s.dones, o, PendingTag(s.ws, o))
    ensures OwnerOk(For(s.cmds + [SubmitCmd(id, b.Tag(), request)], o), s.pool, s.dones, o,
                    if o == id then Some(b.Tag()) else PendingTag(s.ws, o))
  {
    ForSnoc(s.cmds, SubmitCmd(id, b.Tag(), request), o);
    if o == id {
      ForTagsBelow(s.cmds, id, FlushedTo(s.ws.conns[id]));
      OwnerFlush(For(s.cmds, o), s.pool, s.dones, o, b.Tag(), request);
    }
  }

  lemma AbortQueued(s: State, id: nat, o: nat)
    requires id in s.ws.conns && s.ws.conns[id].pending.Some?
    requires OwnerOk(For(s.cmds, o), s.pool, s.dones, o, PendingTag(s.ws, o))
    ensures OwnerOk(For(s.cmds + [AbortCmd(id)], o), s.pool, s.dones, o,
                    if o == id then None else PendingTag(s.ws, o))
  {
    ForSnoc(s.cmds, AbortCmd(id), o);
    if o == id {
      OwnerGiveUp(For(s.cmds, o), s.pool, s.dones, o, s.ws.conns[id].pending.value.batch.Tag());
    }
  }

  /** What a tick sends, and to whose pending batch it matters. */
  lemma TickEffect(world: World, w: Ws, fails: bool, o: nat)
    requires Due(w) && (w.timers[0].id in w.conns ==> ConnOk(w.conns[w.timers[0].id]))
    ensures
      var id := w.timers[0].id;
      var (w1, out) := TakeTimer(world.cfg, w, fails);
      || (out == [] && PendingTag(w1, o) == PendingTag(w, o))
      || (id in w.conns && exists b: Batch, r: Request ::
            && out == [SubmitCmd(id, b.Tag(), r)] && w.conns[id].pending.None? && b.Tag() == FlushedTo(w.conns[id]) + 1
            && PendingTag(w1, o) == if o == id then Some(b.Tag()) else PendingTag(w, o))
      || (id in w.conns && out == [AbortCmd(id)] && w.conns[id].pending.Some?
          && PendingTag(w1, o) == if o == id then None else PendingTag(w, o))
  {
    var id := w.timers[0].id;
    if id in w.conns {
      var c := w.conns[id];
      OnTimerOk(world.cfg, c, w.now);
      var (c1, tick) := OnTimer(world.cfg, c, w.now);
      if tick.TickFlush? {
        var (w1, out) := TakeTimer(world.cfg, w, fails);
        assert out == [SubmitCmd(id, tick.batch.Tag(), Request(c1.pcm, world.cfg.passes))];
      }
    }
  }

  lemma OwnerTick(world: World, s: State, fails: bool, o: nat)
    requires Due(s.ws) && OwnerOk(For(s.cmds, o), s.pool, s.dones, o, PendingTag(s.ws, o))
    requires s.ws.timers[0].id in s.ws.conns ==>
               ConnInv(world, s.ws.conns[s.ws.timers[0].id], s.ws.timers[0].id, s.cmds, s.pool, s.dones)
    ensures
      var (w, out) := TakeTimer(world.cfg, s.ws, fails);
      OwnerOk(For(s.cmds + out, o), s.pool, s.dones, o, PendingTag(w, o))
  {
    var id := s.ws.timers[0].id;
    var (w, out) := TakeTimer(world.cfg, s.ws, fails);
    TickEffect(world, s.ws, fails, o);
    if out == [] {
      assert s.cmds + out == s.cmds;
    } else if out[0].SubmitCmd? {
      var b: Batch, r: Request :|
        && out == [SubmitCmd(id, b.Tag(), r)] && b.Tag() == FlushedTo(s.ws.conns[id]) + 1
        && PendingTag(w, o) == if o == id then Some(b.Tag()) else PendingTag(s.ws, o);
      FlushQueued(s, id, b, r, o);
    } else {
      AbortQueued(s, id, o);
    }
  }

  lemma OwnersTick(world: World, s: State, fails: bool)
    requires Inv(world, s) && Due(s.ws)
    ensures OwnersOk(Next(world, s, Tick(fails)))
  {
    var s1 := Next(world, s, Tick(fails));
    forall o: nat
      ensures OwnerOk(For(s1.cmds, o), s1.pool, s1.dones, o, PendingTag(s1.ws, o))
    {
      OwnerTick(world, s, fails, o);
    }
  }

  lemma OwnerClosing(s: State, o: nat)
    requires s.ws.closing != [] && OwnerOk(For(s.cmds, o), s.pool, s.dones, o, PendingTag(s.ws, o))
    ensures
      var (w, out) := Reap(s.ws);
      OwnerOk(For(s.cmds + out, o), s.pool, s.dones, o, PendingTag(w, o))
  {
    var id := s.ws.closing[0];
    assert s.cmds + [] == s.cmds;
    if id in s.ws.conns && s.ws.conns[id].pending.Some? {
      AbortQueued(s, id, o);
    }
  }

  lemma OwnersClosing(world: World, s: State)
    requires OwnersOk(s) && s.ws.closing != []
    ensures OwnersOk(Next(world, s, Closing))
  {
    var s1 := Next(world, s, Closing);
    forall o: nat
      ensures OwnerOk(For(s1.cmds, o), s1.pool, s1.dones, o, PendingTag(s1.ws, o))
    {
      OwnerClosing(s, o);
    }
  }

  lemma ResultEffect(cfg: Config, w: Ws, d: Done, fails: bool, o: nat)
    ensures PendingTag(TakeResult(cfg, w, d, fails), o) ==
              if d.owner == o && PendingTag(w, o) == Some(d.tag) then None else PendingTag(w, o)
  {
  }

  lemma OwnersResult(world: World, s: State, fails: bool)
    requires OwnersOk(s) && s.dones != []
    ensures OwnersOk(Next(world, s, Result(fails)))
  {
    var s1 := Next(world, s, Result(fails));
    forall o: nat
      ensures OwnerOk(For(s1.cmds, o), s1.pool, s1.dones, o, PendingTag(s1.ws, o))
    {
      ResultEffect(world.cfg, s.ws, s.dones[0], fails, o);
      assert OwnerOk(For(s.cmds, o), s.pool, s.dones, o, PendingTag(s.ws, o));
      OwnerTakesResult(For(s.cmds, o), s.pool, s.dones, o, PendingTag(s.ws, o));
    }
  }

  /** What a readiness event on slot `idx` does to the pool, and what it reports. */
  ghost predicate ReadyEffect(world: World, p: Pool, q: Pool, idx: nat, d: Option<Done>)
  {
    && OnlySlot(p, q, idx) && idx < |p.slots|
    && (d.None? ==>
          q.slots[idx].owner == p.slots[idx].owner && q.slots[idx].tag == p.slots[idx].tag
          && q.slots[idx].request == p.slots[idx].request)
    && (d.Some? ==>
          && p.slots[idx].owner == Some(d.value.owner) && d.value.tag == p.slots[idx].tag && q.slots[idx].owner.None?
          && (GoodPeer(world.peer) && d.value.reply.Ok? ==>
                d.value.reply.infer == ComputeStub(p.slots[idx].request.body, p.slots[idx].request.passes)))
  }

  lemma ReadyHas(world: World, p: Pool, e: Event)
    requires e.Ready? && PoolInv(world.peer, p)
    requires e.idx < |p.slots| && p.slots[e.idx].sock.Some? && Legal(world.peer, p.slots[e.idx], e.io)
    ensures
      var (q, d) := OnEvent(world.peer.parse, p, e.idx, e.writable, e.io, e.dialOk);
      PoolInv(world.peer, q) && ReadyEffect(world, p, q, e.idx, d)
  {
    OnEventKeeps(world.peer, p, e.idx, e.writable, e.io, e.dialOk);
  }

  lemma OwnerReady(world: World, c: seq<Cmd>, p: Pool, q: Pool, idx: nat, d: Option<Done>,
                   dones: seq<Done>, o: nat, pending: Option<nat>)
    requires OwnerOk(c, p, dones, o, pending) && ReadyEffect(world, p, q, idx, d)
    ensures OwnerOk(c, q, dones + Sent(d), o, pending)
  {
    if d.Some? {
      OwnerFinishes(c, p, q, idx, dones, d.value, o, pending);
    } else {
      assert dones + Sent(d) == dones;
      OwnerFrame(c, p, q, dones, o, pending);
    }
  }

  lemma OwnersReady(world: World, s: State, q: Pool, idx: nat, d: Option<Done>)
    requires OwnersOk(s) && ReadyEffect(world, s.pool, q, idx, d)
    ensures OwnersOk(s.(pool := q, dones := s.dones + Sent(d)))
  {
    forall o: nat
      ensures OwnerOk(For(s.cmds, o), q, s.dones + Sent(d), o, PendingTag(s.ws, o))
    {
      OwnerReady(world, For(s.cmds, o), s.pool, q, idx, d, s.dones, o, PendingTag(s.ws, o));
    }
  }

  lemma OwnerOtherReport(q: seq<Cmd>, p: Pool, dones: seq<Done>, d: Done, o: nat, pending: Option<nat>)
    requires OwnerOk(q, p, dones, o, pending) && d.owner != o
    ensures OwnerOk(q, p, dones + [d], o, pending)
  {
    if pending.Some? { ReportedSnoc(dones, d, o, pending.value); }
  }

  lemma SubmitRefused(cmds: seq<Cmd>, p: Pool, p1: Pool, dones: seq<Done>, d: Done, o: nat, pending: Option<nat>)
    requires cmds != [] && cmds[0].SubmitCmd? && d.owner == cmds[0].owner && d.tag == cmds[0].tag
    requires OwnerOk(For(cmds, o), p, dones, o, pending)
    requires forall i :: Owns(p1, i, o) <==> Owns(p, i, o)
    requires forall i :: Owns(p, i, o) && Owns(p1, i, o) ==> p1.slots[i].tag == p.slots[i].tag
    ensures OwnerOk(For(cmds[1..], o), p1, dones + [d], o, pending)
  {
    ForTail(cmds, o);
    if o == cmds[0].owner {
      OwnerRefused(For(cmds, o), p, p1, dones, d, o, pending);
    } else {
      OwnerFrame(For(cmds, o), p, p1, dones, o, pending);
      OwnerOtherReport(For(cmds, o), p1, dones, d, o, pending);
    }
  }

  lemma SubmitStarted(cmds: seq<Cmd>, p: Pool, p1: Pool, idx: nat, dones: seq<Done>, o: nat, pending: Option<nat>)
    requires cmds != [] && cmds[0].SubmitCmd?
    requires OwnerOk(For(cmds, o), p, dones, o, pending)
    requires OnlySlot(p, p1, idx) && idx < |p.slots| && p.slots[idx].owner.None?
    requires p1.slots[idx].owner == Some(cmds[0].owner) && p1.slots[idx].tag == cmds[0].tag
    ensures OwnerOk(For(cmds[1..], o), p1, dones, o, pending)
  {
    ForTail(cmds, o);
    if o == cmds[0].owner {
      OwnerStarts(For(cmds, o), p, p1, idx, dones, o, pending);
    } else {
      assert forall i :: Owns(p1, i, o) <==> Owns(p, i, o);
      OwnerFrame(For(cmds, o), p, p1, dones, o, pending);
    }
  }

  /** What a submission does to the pool: it is refused at once, or a free slot takes it. */
  ghost predicate SubmitEffect(p: Pool, q: Pool, cmd: Cmd, d: Option<Done>)
    requires cmd.SubmitCmd?
  {
    && |q.slots| == |p.slots|
    && (d.Some? ==>
          && d.value == Done(cmd.owner, cmd.tag, Err(ConnectionReset))
          && (forall i :: 0 <= i < |p.slots| ==>
                q.slots[i].owner == p.slots[i].owner && (q.slots[i].owner.Some? ==> q.slots[i] == p.slots[i])))
    && (d.None? ==> exists idx :: Takes(p, q, idx, cmd))
  }

  ghost predicate Takes(p: Pool, q: Pool, idx: nat, cmd: Cmd)
    requires cmd.SubmitCmd?
  {
    && idx < |p.slots| && p.slots[idx].owner.None? && OnlySlot(p, q, idx)
    && q.slots[idx].owner == Some(cmd.owner) && q.slots[idx].tag == cmd.tag && q.slots[idx].request == cmd.request
  }

  lemma SubmitHas(world: World, p: Pool, cmd: Cmd, dialOk: bool)
    requires PoolInv(world.peer, p) && cmd.SubmitCmd?
    ensures
      var (q, d) := Submit(world.peer.target, p, cmd.owner, cmd.tag, cmd.request, dialOk);
      PoolInv(world.peer, q) && SubmitEffect(p, q, cmd, d)
  {
    SubmitKeeps(world.peer, p, cmd.owner, cmd.tag, cmd.request, dialOk);
    var (q, d) := Submit(world.peer.target, p, cmd.owner, cmd.tag, cmd.request, dialOk);
    if d.None? {
      var idx :| 0 <= idx < |p.slots| && p.slots[idx].owner.None? && OnlySlot(p, q, idx)
        && q.slots[idx].owner == Some(cmd.owner) && q.slots[idx].tag == cmd.tag && q.slots[idx].request == cmd.request;
      assert Takes(p, q, idx, cmd);
    }
  }

  lemma OwnerSubmit(cmds: seq<Cmd>, p: Pool, q: Pool, d: Option<Done>, dones: seq<Done>, o: nat, pending: Option<nat>)
    requires cmds != [] && cmds[0].SubmitCmd? && SubmitEffect(p, q, cmds[0], d)
    requires OwnerOk(For(cmds, o), p, dones, o, pending)
    ensures OwnerOk(For(cmds[1..], o), q, dones + Sent(d), o, pending)
  {
    if d.Some? {
      SubmitRefused(cmds, p, q, dones, d.value, o, pending);
    } else {
      assert dones + Sent(d) == dones;
      var idx :| Takes(p, q, idx, cmds[0]);
      SubmitStarted(cmds, p, q, idx, dones, o, pending);
    }
  }

  lemma OwnersSubmit(s: State, q: Pool, d: Option<Done>)
    requires OwnersOk(s) && s.cmds != [] && s.cmds[0].SubmitCmd? && SubmitEffect(s.pool, q, s.cmds[0], d)
    ensures OwnersOk(s.(pool := q, cmds := s.cmds[1..], dones := s.dones + Sent(d)))
  {
    forall o: nat
      ensures OwnerOk(For(s.cmds[1..], o), q, s.dones + Sent(d), o, PendingTag(s.ws, o))
    {
      OwnerSubmit(s.cmds, s.pool, q, d, s.dones, o, PendingTag(s.ws, o));
    }
  }

  /** What an abort does to the pool: it frees one slot of `owner`, if there is one. */
  ghost predicate AbortEffect(p: Pool, q: Pool, owner: nat)
  {
    && (forall o, i :: Owns(q, i, o) ==> Owns(p, i, o) && q.slots[i] == p.slots[i])
    && (forall o, i :: o != owner && Owns(p, i, o) ==> Owns(q, i, o))
    && ((forall i :: !Owns(p, i, owner)) || exists i :: Owns(p, i, owner) && !Owns(q, i, owner))
  }

  lemma AbortHas(world: World, p: Pool, owner: nat)
    requires PoolInv(world.peer, p)
    ensures PoolInv(world.peer, AbortOwner(p, owner)) && AbortEffect(p, AbortOwner(p, owner), owner)
  {
    AbortKeeps(world.peer, p, owner);
    var r, q := FirstOwned(p.slots, owner, 0), AbortOwner(p, owner);
    if r.Some? {
      assert Owns(p, r.value, owner) && !Owns(q, r.value, owner);
    }
  }

  lemma OwnerAbort(cmds: seq<Cmd>, p: Pool, q: Pool, dones: seq<Done>, o: nat, pending: Option<nat>)
    requires cmds != [] && cmds[0].AbortCmd? && AbortEffect(p, q, cmds[0].owner)
    requires OwnerOk(For(cmds, o), p, dones, o, pending)
    ensures OwnerOk(For(cmds[1..], o), q, dones, o, pending)
  {
    ForTail(cmds, o);
    if o == cmds[0].owner {
      OwnerAborted(For(cmds, o), p, q, dones, o, pending);
    } else {
      OwnerFrame(For(cmds, o), p, q, dones, o, pending);
    }
  }

  lemma OwnersAbort(s: State, q: Pool)
    requires OwnersOk(s) && s.cmds != [] && s.cmds[0].AbortCmd? && AbortEffect(s.pool, q, s.cmds[0].owner)
    ensures OwnersOk(s.(pool := q, cmds := s.cmds[1..]))
  {
    forall o: nat
      ensures OwnerOk(For(s.cmds[1..], o), q, s.dones, o, PendingTag(s.ws, o))
    {
      OwnerAbort(s.cmds, s.pool, q, s.dones, o, PendingTag(s.ws, o));
    }
  }

  // ------------------------------------------- each connection, step by step

  /** More frames at the end do not change an earlier range. */
  lemma AudioStable(c: Conn, c1: Conn, r: Range)
    requires c.received <= c1.received && WellFormed(r) && r.newest <= |c.received|
    ensures Audio(c1, r) == Audio(c, r)
  {
    assert c1.received[r.oldest - 1..r.newest] == c.received[r.oldest - 1..r.newest];
  }

  lemma PendingRangeKnown(c: Conn)
    requires ConnOk(c) && c.pending.Some?
    ensures c.pending.value.batch.range.newest == FlushedTo(c) <= |c.received|
    ensures WellFormed(c.pending.value.batch.range)
  {
    assert c.flushed[|c.flushed| - 1] == c.pending.value.batch.range;
  }

  /** Receiving more frames keeps what was said about the earlier ones. */
  lemma ConnReceives(world: World, c: Conn, o: nat, m: Message, at: int, cmds: seq<Cmd>, p: Pool, dones: seq<Done>)
    requires ConnInv(world, c, o, cmds, p, dones)
    ensures ConnInv(world, OnMessage(c, m, at).0, o, cmds, p, dones)
  {
    OnMessageOk(c, m, at);
    var c1 := OnMessage(c, m, at).0;
    if c.pending.Some? {
      PendingRangeKnown(c);
      AudioStable(c, c1, c.pending.value.batch.range);
    }
    if GoodPeer(world.peer) {
      forall i | 0 <= i < |c1.sent|
        ensures Truthful(world, c1, c1.sent[i])
      {
        assert Truthful(world, c, c.sent[i]);
        if c.sent[i].Partial? { AudioStable(c, c1, c.sent[i].range); }
      }
    }
  }

  /** With one result fewer under way, the rest is as before. */
  lemma FewerResults(world: World, cmds: seq<Cmd>, p: Pool, dones: seq<Done>, o: nat, f: int, tag: nat, r: Request)
    requires dones != []
    ensures TagsWithin(cmds, p, dones, o, f) ==> TagsWithin(cmds, p, dones[1..], o, f)
    ensures Carries(world, cmds, p, dones, o, tag, r) ==> Carries(world, cmds, p, dones[1..], o, tag, r)
  {
    assert forall k :: 0 <= k < |dones[1..]| ==> dones[1..][k] == dones[k + 1];
    assert forall k :: Reports(dones[1..], k, o, tag) ==> Reports(dones, k + 1, o, tag);
  }

  lemma ConnIgnoresResult(world: World, c: Conn, o: nat, cmds: seq<Cmd>, p: Pool, dones: seq<Done>)
    requires dones != [] && ConnInv(world, c, o, cmds, p, dones)
    ensures ConnInv(world, c, o, cmds, p, dones[1..])
  {
    if c.pending.Some? {
      FewerResults(world, cmds, p, dones, o, FlushedTo(c), c.pending.value.batch.Tag(), PendingRequest(world, c));
    } else {
      FewerResults(world, cmds, p, dones, o, FlushedTo(c), 0, Request([], 0));
    }
  }

  /** The matching result is answered truthfully; any other result is dropped. */
  lemma ConnTakesResult(world: World, c: Conn, o: nat, cmds: seq<Cmd>, p: Pool, dones: seq<Done>)
    requires dones != [] && ConnInv(world, c, o, cmds, p, dones)
    ensures
      var c1 := if dones[0].owner == o then OnDone(world.cfg, c, dones[0].tag, dones[0].reply) else c;
      ConnInv(world, c1, o, cmds, p, dones[1..])
  {
    var d := dones[0];
    ConnIgnoresResult(world, c, o, cmds, p, dones);
    if d.owner == o && c.pending.Some? && c.pending.value.batch.Tag() == d.tag {
      assert Reports(dones, 0, o, d.tag);
      ConnAnswers(world, c, d.reply);
    }
  }

  lemma ConnAnswers(world: World, c: Conn, reply: Reply)
    requires ConnOk(c) && AllTruthful(world, c) && c.pending.Some?
    requires GoodPeer(world.peer) && reply.Ok? ==>
               reply.infer == ComputeStub(PendingRequest(world, c).body, world.cfg.passes)
    ensures ConnOk(Deliver(world.cfg, c, reply)) && AllTruthful(world, Deliver(world.cfg, c, reply))
    ensures FlushedTo(Deliver(world.cfg, c, reply)) == FlushedTo(c)
  {
    DeliverOk(world.cfg, c, reply);
    PendingRangeKnown(c);
    var c1 := Deliver(world.cfg, c, reply);
    if GoodPeer(world.peer) {
      forall i | 0 <= i < |c1.sent|
        ensures Truthful(world, c1, c1.sent[i])
      {
        if i < |c.sent| { assert Truthful(world, c, c.sent[i]); }
      }
    }
  }

  /** A flush: the only thing that carries the new tag is the new command, with the buffered audio. */
  lemma ConnFlushes(world: World, c: Conn, o: nat, now: int, b: Batch, cmds: seq<Cmd>, p: Pool, dones: seq<Done>)
    requires ConnInv(world, c, o, cmds, p, dones) && c.pending.None?
    requires BatchOk(b) && b.range == Range(FlushedTo(c) + 1, c.seqNo) && c.pcm == Audio(c, b.range)
    ensures
      var r := Request(c.pcm, world.cfg.passes);
      ConnInv(world, BeginPending(c, b, now), o, cmds + [SubmitCmd(o, b.Tag(), r)], p, dones)
  {
    BeginPendingOk(c, b, now);
    var c1 := BeginPending(c, b, now);
    var r := Request(c.pcm, world.cfg.passes);
    assert Audio(c1, b.range) == Audio(c, b.range);
    var cmds1 := cmds + [SubmitCmd(o, b.Tag(), r)];
    assert forall j :: 0 <= j < |cmds| ==> cmds1[j] == cmds[j];
    if GoodPeer(world.peer) {
      forall i | 0 <= i < |c1.sent|
        ensures Truthful(world, c1, c1.sent[i])
      {
        assert Truthful(world, c, c.sent[i]);
      }
    }
  }

  /** A command of another owner, or an abort, is no concern of connection `o`'s batch. */
  lemma ConnOtherCmd(world: World, c: Conn, o: nat, cmds: seq<Cmd>, cmd: Cmd, p: Pool, dones: seq<Done>)
    requires ConnInv(world, c, o, cmds, p, dones) && (cmd.AbortCmd? || cmd.owner != o)
    ensures ConnInv(world, c, o, cmds + [cmd], p, dones)
  {
  }

  /** A readiness event: what slot `idx` reports is the answer to the request it held. */
  lemma ConnReady(world: World, c: Conn, o: nat, cmds: seq<Cmd>, p: Pool, q: Pool, idx: nat, d: Option<Done>,
                  dones: seq<Done>)
    requires ConnInv(world, c, o, cmds, p, dones) && ReadyEffect(world, p, q, idx, d)
    ensures ConnInv(world, c, o, cmds, q, dones + Sent(d))
  {
    assert forall i :: Owns(q, i, o) ==>
        Owns(p, i, o) && q.slots[i].tag == p.slots[i].tag && q.slots[i].request == p.slots[i].request;
    ConnPool(world, c, o, cmds, cmds, p, q, dones);
    if d.Some? {
      if d.value.owner == o { assert Owns(p, idx, o); }
      ConnReport(world, c, o, cmds, q, dones, d.value);
    } else {
      assert dones + Sent(d) == dones;
    }
  }

  /** Fewer commands, and slots of `o` that were there before. */
  lemma ConnPool(world: World, c: Conn, o: nat, cmds: seq<Cmd>, cmds1: seq<Cmd>, p: Pool, p1: Pool, dones: seq<Done>)
    requires ConnInv(world, c, o, cmds, p, dones)
    requires forall j :: 0 <= j < |cmds1| ==> cmds1[j] in cmds
    requires forall i :: Owns(p1, i, o) ==>
               Owns(p, i, o) && p1.slots[i].tag == p.slots[i].tag && p1.slots[i].request == p.slots[i].request
    ensures ConnInv(world, c, o, cmds1, p1, dones)
  {
  }

  lemma ConnReport(world: World, c: Conn, o: nat, cmds: seq<Cmd>, p: Pool, dones: seq<Done>, d: Done)
    requires ConnInv(world, c, o, cmds, p, dones)
    requires d.owner == o ==> d.tag <= FlushedTo(c)
    requires GoodPeer(world.peer) && d.owner == o && d.reply.Ok? && c.pending.Some?
             && d.tag == c.pending.value.batch.Tag() ==>
               d.reply.infer == ComputeStub(PendingRequest(world, c).body, world.cfg.passes)
    ensures ConnInv(world, c, o, cmds, p, dones + [d])
  {
  }

  /** The request at the head of the queue is now in slot `idx`: its tag and its request moved along. */
  ghost predicate MovedTo(cmd: Cmd, p: Pool, p1: Pool, idx: nat)
  {
    && cmd.SubmitCmd? && OnlySlot(p, p1, idx) && idx < |p.slots|
    && p1.slots[idx].owner == Some(cmd.owner) && p1.slots[idx].tag == cmd.tag && p1.slots[idx].request == cmd.request
  }

  lemma ConnSubmit(world: World, c: Conn, o: nat, cmds: seq<Cmd>, p: Pool, q: Pool, d: Option<Done>, dones: seq<Done>)
    requires ConnInv(world, c, o, cmds, p, dones) && cmds != [] && cmds[0].SubmitCmd? && SubmitEffect(p, q, cmds[0], d)
    ensures ConnInv(world, c, o, cmds[1..], q, dones + Sent(d))
  {
    if d.Some? {
      assert forall i :: Owns(q, i, o) ==> Owns(p, i, o) && q.slots[i] == p.slots[i];
      ConnPool(world, c, o, cmds, cmds[1..], p, q, dones);
      ConnReport(world, c, o, cmds[1..], q, dones, d.value);
    } else {
      assert dones + Sent(d) == dones;
      var idx :| Takes(p, q, idx, cmds[0]);
    }
  }

  /** The connection whose timer fired. */
  lemma ConnHandles(world: World, c: Conn, o: nat, now: int, cmds: seq<Cmd>, p: Pool, dones: seq<Done>)
    requires ConnInv(world, c, o, cmds, p, dones)
    ensures ConnInv(world, Handled(world.cfg, c, now), o, cmds + TickCmd(world.cfg, c, o, now), p, dones)
  {
    OnTimerOk(world.cfg, c, now);
    var (c1, tick) := OnTimer(world.cfg, c, now);
    match tick
    case TickKeep =>
      assert cmds + [] == cmds;
      ConnRetimed(world, c, c1, o, cmds, p, dones);
    case TickFlush(b) =>
      ConnRetimed(world, c, c1, o, cmds, p, dones);
      ConnFlushes(world, c1, o, now, b, cmds, p, dones);
    case TickTimeout =>
      ConnTimesOut(world, c, o, cmds, p, dones);
  }

  /** A timer tick on connection `id`, as every connection sees it. */
  lemma ConnTick(world: World, s: State, fails: bool, o: nat)
    requires Due(s.ws) && o in s.ws.conns && ConnInv(world, s.ws.conns[o], o, s.cmds, s.pool, s.dones)
    ensures
      var (w, out) := TakeTimer(world.cfg, s.ws, fails);
      o in w.conns && ConnInv(world, w.conns[o], o, s.cmds + out, s.pool, s.dones)
  {
    var id, c := s.ws.timers[0].id, s.ws.conns[o];
    if id !in s.ws.conns {
      assert s.cmds + [] == s.cmds;
    } else if o == id {
      ConnHandles(world, c, o, s.ws.now, s.cmds, s.pool, s.dones);
    }
  }

  lemma ConnRetimed(world: World, c: Conn, c1: Conn, o: nat, cmds: seq<Cmd>, p: Pool, dones: seq<Done>)
    requires ConnInv(world, c, o, cmds, p, dones) && ConnOk(c1) && c1 == c.(nextFlush := c1.nextFlush)
    ensures ConnInv(world, c1, o, cmds, p, dones)
  {
    if c.pending.Some? {
      PendingRangeKnown(c);
      assert Audio(c1, c.pending.value.batch.range) == Audio(c, c.pending.value.batch.range);
    }
    if GoodPeer(world.peer) {
      forall i | 0 <= i < |c1.sent|
        ensures Truthful(world, c1, c1.sent[i])
      {
        assert Truthful(world, c, c.sent[i]);
      }
    }
  }

  lemma ConnTimesOut(world: World, c: Conn, o: nat, cmds: seq<Cmd>, p: Pool, dones: seq<Done>)
    requires ConnInv(world, c, o, cmds, p, dones) && c.pending.Some?
    ensures ConnInv(world, Deliver(world.cfg, c, Err(Timeout)), o, cmds + [AbortCmd(o)], p, dones)
  {
    ConnAnswers(world, c, Err(Timeout));
    var c1 := Deliver(world.cfg, c, Err(Timeout));
    assert ConnInv(world, c1, o, cmds, p, dones);
    ConnOtherCmd(world, c1, o, cmds, AbortCmd(o), p, dones);
  }

  // ------------------------------------------------------------ the whole invariant

  lemma StartInv(world: World, poolSize: nat)
    ensures Inv(world, Start(poolSize))
  {
    NewPoolInv(world.peer, poolSize);
  }

  lemma ElapseKeeps(world: World, s: State, e: Event)
    requires Inv(world, s) && (e.Elapse? || e.Break?)
    ensures Inv(world, Next(world, s, e))
  {
    var s1 := Next(world, s, e);
    forall o: nat
      ensures OwnerOk(For(s1.cmds, o), s1.pool, s1.dones, o, PendingTag(s1.ws, o))
    {
      assert OwnerOk(For(s.cmds, o), s.pool, s.dones, o, PendingTag(s.ws, o));
    }
  }

  /** Nothing is under way yet for an id that was not given out. */
  lemma ConnFresh(world: World, s: State, c: Conn, o: nat)
    requires IdsOk(s) && o == s.ws.nextId && ConnOk(c) && c.pending.None? && c.sent == [] && FlushedTo(c) >= 0
    ensures ConnInv(world, c, o, s.cmds, s.pool, s.dones)
  {
    assert forall i :: !Owns(s.pool, i, o);
  }

  lemma ConnsAccept(world: World, s: State, e: Event)
    requires ConnsOk(world, s) && IdsOk(s) && e.Accept?
    ensures ConnsOk(world, Next(world, s, e))
  {
    if e.registered {
      var c := NewConn(world.cfg, s.ws.now + e.delay, e.phase);
      NewConnOk(world.cfg, s.ws.now + e.delay, e.phase);
      ConnFresh(world, s, c, s.ws.nextId);
      ConnsUpdate(world, s, s.ws.nextId, c, Next(world, s, e).ws);
    }
  }

  lemma IdsAccept(world: World, s: State, e: Event)
    requires IdsOk(s) && e.Accept?
    ensures IdsOk(Next(world, s, e))
  {
  }

  lemma OwnersAccept(world: World, s: State, e: Event)
    requires OwnersOk(s) && e.Accept? && (forall id :: id in s.ws.conns ==> id < s.ws.nextId)
    ensures OwnersOk(Next(world, s, e))
  {
    var s1 := Next(world, s, e);
    forall o: nat
      ensures OwnerOk(For(s1.cmds, o), s1.pool, s1.dones, o, PendingTag(s1.ws, o))
    {
      assert OwnerOk(For(s.cmds, o), s.pool, s.dones, o, PendingTag(s.ws, o));
      assert PendingTag(s1.ws, o) == PendingTag(s.ws, o);
    }
  }

  lemma AcceptKeeps(world: World, s: State, e: Event)
    requires Inv(world, s) && e.Accept?
    ensures Inv(world, Next(world, s, e))
  {
    var s1 := Next(world, s, e);
    assert TimersOk(s1.ws) by { AcceptOk(world.cfg, s.ws, e.registered, s.ws.now + e.delay, e.phase); }
    assert OwnersOk(s1) by { OwnersAccept(world, s, e); }
    assert ConnsOk(world, s1) by { ConnsAccept(world, s, e); }
    assert IdsOk(s1) by { IdsAccept(world, s, e); }
  }

  lemma OwnersReceive(world: World, s: State, e: Event)
    requires OwnersOk(s) && e.Receive?
    ensures OwnersOk(Next(world, s, e))
  {
    var s1 := Next(world, s, e);
    forall o: nat
      ensures OwnerOk(For(s1.cmds, o), s1.pool, s1.dones, o, PendingTag(s1.ws, o))
    {
      assert OwnerOk(For(s.cmds, o), s.pool, s.dones, o, PendingTag(s.ws, o));
      assert PendingTag(s1.ws, o) == PendingTag(s.ws, o);
    }
  }

  /** One connection changes. */
  lemma ConnsUpdate(world: World, s: State, id: nat, c: Conn, w: Ws)
    requires ConnsOk(world, s) && ConnInv(world, c, id, s.cmds, s.pool, s.dones) && w.conns == s.ws.conns[id := c]
    ensures ConnsOk(world, s.(ws := w))
  {
  }

  lemma ReadsOne(w: Ws, id: nat, m: Message, at: int)
    requires id in w.conns
    ensures ReadMessage(w, id, m, at).conns == w.conns[id := OnMessage(w.conns[id], m, at).0]
  {
  }

  lemma ConnsRead(world: World, s: State, id: nat, m: Message, at: int)
    requires ConnsOk(world, s)
    ensures ConnsOk(world, s.(ws := ReadMessage(s.ws, id, m, at)))
  {
    if id in s.ws.conns {
      assert ConnInv(world, s.ws.conns[id], id, s.cmds, s.pool, s.dones);
      ReadsOne(s.ws, id, m, at);
      ConnReceives(world, s.ws.conns[id], id, m, at, s.cmds, s.pool, s.dones);
      ConnsUpdate(world, s, id, OnMessage(s.ws.conns[id], m, at).0, ReadMessage(s.ws, id, m, at));
    }
  }

  lemma ConnsReceive(world: World, s: State, e: Event)
    requires ConnsOk(world, s) && e.Receive?
    ensures ConnsOk(world, Next(world, s, e))
  {
    ConnsRead(world, s, e.id, e.message, s.ws.now + e.delay);
  }

  lemma ReceiveIds(world: World, s: State, e: Event)
    requires IdsOk(s) && e.Receive?
    ensures IdsOk(Next(world, s, e))
  {
    assert Next(world, s, e).ws.conns.Keys == s.ws.conns.Keys;
  }

  lemma TimersReceive(world: World, s: State, e: Event)
    requires TimersOk(s.ws) && e.Receive?
    ensures TimersOk(Next(world, s, e).ws)
  {
  }

  lemma ReceiveKeeps(world: World, s: State, e: Event)
    requires Inv(world, s) && e.Receive?
    ensures Inv(world, Next(world, s, e))
  {
    var s1 := Next(world, s, e);
    assert IdsOk(s1) by { ReceiveIds(world, s, e); }
    assert TimersOk(s1.ws) by { TimersReceive(world, s, e); }
    assert OwnersOk(s1) by { OwnersReceive(world, s, e); }
    assert ConnsOk(world, s1) by { ConnsReceive(world, s, e); }
    assert PoolInv(world.peer, s1.pool) && GoneOk(world, s1.gone);
  }

  lemma ConnsResult(world: World, s: State, fails: bool)
    requires ConnsOk(world, s) && s.dones != []
    ensures ConnsOk(world, Next(world, s, Result(fails)))
  {
    var s1 := Next(world, s, Result(fails));
    forall o | o in s1.ws.conns
      ensures ConnInv(world, s1.ws.conns[o], o, s1.cmds, s1.pool, s1.dones)
    {
      assert ConnInv(world, s.ws.conns[o], o, s.cmds, s.pool, s.dones);
      ConnTakesResult(world, s.ws.conns[o], o, s.cmds, s.pool, s.dones);
    }
  }

  lemma ResultKeeps(world: World, s: State, e: Event)
    requires Inv(world, s) && e.Result? && Enabled(world, s, e)
    ensures Inv(world, Next(world, s, e))
  {
    var s1 := Next(world, s, e);
    assert TimersOk(s1.ws) by { TakeResultOk(world.cfg, s.ws, s.dones[0], e.fails); }
    assert OwnersOk(s1) by { OwnersResult(world, s, e.fails); }
    assert ConnsOk(world, s1) by { ConnsResult(world, s, e.fails); }
    assert IdsOk(s1) by { assert s1.ws.conns.Keys == s.ws.conns.Keys; }
  }

  lemma TickKeeps(world: World, s: State, e: Event)
    requires Inv(world, s) && e.Tick? && Enabled(world, s, e)
    ensures Inv(world, Next(world, s, e))
  {
    var s1 := Next(world, s, e);
    TakeTimerOk(world.cfg, s.ws, e.fails);
    OwnersTick(world, s, e.fails);
    TickIds(world, s, e.fails);
    forall o | o in s1.ws.conns
      ensures ConnInv(world, s1.ws.conns[o], o, s1.cmds, s1.pool, s1.dones)
    {
      assert ConnInv(world, s.ws.conns[o], o, s.cmds, s.pool, s.dones);
      ConnTick(world, s, e.fails, o);
    }
  }

  lemma TickIds(world: World, s: State, fails: bool)
    requires IdsOk(s) && Due(s.ws) && (forall id :: id in s.ws.conns ==> id < s.ws.nextId)
    ensures IdsOk(Next(world, s, Tick(fails)))
    ensures Next(world, s, Tick(fails)).ws.conns.Keys == s.ws.conns.Keys
  {
    var (w, out) := TakeTimer(world.cfg, s.ws, fails);
    assert forall j :: 0 <= j < |out| ==> out[j].owner in s.ws.conns;
  }

  lemma ConnsClosing(world: World, s: State)
    requires ConnsOk(world, s) && s.ws.closing != []
    ensures ConnsOk(world, Next(world, s, Closing))
  {
    var s1, out := Next(world, s, Closing), Reap(s.ws).1;
    forall o | o in s1.ws.conns
      ensures ConnInv(world, s1.ws.conns[o], o, s1.cmds, s1.pool, s1.dones)
    {
      assert ConnInv(world, s.ws.conns[o], o, s.cmds, s.pool, s.dones);
      if out == [] {
        assert s1.cmds == s.cmds;
      } else {
        ConnOtherCmd(world, s.ws.conns[o], o, s.cmds, out[0], s.pool, s.dones);
      }
    }
  }

  /** A closed connection moves to `gone` as it was. */
  lemma GoneClosing(world: World, s: State)
    requires ConnsOk(world, s) && GoneOk(world, s.gone) && s.ws.closing != []
    ensures GoneOk(world, Next(world, s, Closing).gone)
  {
    var id := s.ws.closing[0];
    if id in s.ws.conns {
      assert ConnInv(world, s.ws.conns[id], id, s.cmds, s.pool, s.dones);
    }
  }

  lemma IdsClosing(world: World, s: State)
    requires IdsOk(s) && s.ws.closing != [] && (forall id :: id in s.ws.conns ==> id < s.ws.nextId)
    ensures IdsOk(Next(world, s, Closing))
  {
  }

  lemma ClosingKeeps(world: World, s: State, e: Event)
    requires Inv(world, s) && e.Closing? && Enabled(world, s, e)
    ensures Inv(world, Next(world, s, e))
  {
    var s1 := Next(world, s, e);
    assert TimersOk(s1.ws) by { ReapOk(s.ws); }
    assert OwnersOk(s1) by { OwnersClosing(world, s); }
    assert ConnsOk(world, s1) by { ConnsClosing(world, s); }
    assert GoneOk(world, s1.gone) by { GoneClosing(world, s); }
    assert IdsOk(s1) by { IdsClosing(world, s); }
  }

  lemma ConnsReady(world: World, s: State, q: Pool, idx: nat, d: Option<Done>)
    requires ConnsOk(world, s) && IdsOk(s) && ReadyEffect(world, s.pool, q, idx, d)
    ensures ConnsOk(world, s.(pool := q, dones := s.dones + Sent(d)))
    ensures IdsOk(s.(pool := q, dones := s.dones + Sent(d)))
  {
    forall o | o in s.ws.conns
      ensures ConnInv(world, s.ws.conns[o], o, s.cmds, q, s.dones + Sent(d))
    {
      assert ConnInv(world, s.ws.conns[o], o, s.cmds, s.pool, s.dones);
      ConnReady(world, s.ws.conns[o], o, s.cmds, s.pool, q, idx, d, s.dones);
    }
  }

  lemma ReadyKeeps(world: World, s: State, e: Event)
    requires Inv(world, s) && e.Ready? && Enabled(world, s, e)
    ensures Inv(world, Next(world, s, e))
  {
    var (q, d) := OnEvent(world.peer.parse, s.pool, e.idx, e.writable, e.io, e.dialOk);
    var s1 := s.(pool := q, dones := s.dones + Sent(d));
    ReadyHas(world, s.pool, e);
    assert OwnersOk(s1) by { OwnersReady(world, s, q, e.idx, d); }
    assert ConnsOk(world, s1) && IdsOk(s1) by { ConnsReady(world, s, q, e.idx, d); }
  }

  lemma ConnsSubmit(world: World, s: State, q: Pool, d: Option<Done>)
    requires ConnsOk(world, s) && IdsOk(s) && s.cmds != [] && s.cmds[0].SubmitCmd?
    requires SubmitEffect(s.pool, q, s.cmds[0], d)
    ensures
      var s1 := s.(pool := q, cmds := s.cmds[1..], dones := s.dones + Sent(d));
      ConnsOk(world, s1) && IdsOk(s1)
  {
    forall o | o in s.ws.conns
      ensures ConnInv(world, s.ws.conns[o], o, s.cmds[1..], q, s.dones + Sent(d))
    {
      assert ConnInv(world, s.ws.conns[o], o, s.cmds, s.pool, s.dones);
      ConnSubmit(world, s.ws.conns[o], o, s.cmds, s.pool, q, d, s.dones);
    }
  }

  lemma SubmitCmdKeeps(world: World, s: State, e: Event)
    requires Inv(world, s) && e.Command? && s.cmds != [] && s.cmds[0].SubmitCmd?
    ensures Inv(world, Next(world, s, e))
  {
    var cmd := s.cmds[0];
    var (q, d) := Submit(world.peer.target, s.pool, cmd.owner, cmd.tag, cmd.request, e.dialOk);
    var s1 := s.(pool := q, cmds := s.cmds[1..], dones := s.dones + Sent(d));
    SubmitHas(world, s.pool, cmd, e.dialOk);
    assert OwnersOk(s1) by { OwnersSubmit(s, q, d); }
    assert ConnsOk(world, s1) && IdsOk(s1) by { ConnsSubmit(world, s, q, d); }
  }

  lemma ConnsAbort(world: World, s: State, q: Pool)
    requires ConnsOk(world, s) && IdsOk(s) && s.cmds != [] && AbortEffect(s.pool, q, s.cmds[0].owner)
    ensures ConnsOk(world, s.(pool := q, cmds := s.cmds[1..])) && IdsOk(s.(pool := q, cmds := s.cmds[1..]))
  {
    assert forall i :: 0 <= i < |q.slots| && q.slots[i].owner.Some? ==> Owns(q, i, q.slots[i].owner.value);
    forall o | o in s.ws.conns
      ensures ConnInv(world, s.ws.conns[o], o, s.cmds[1..], q, s.dones)
    {
      assert ConnInv(world, s.ws.conns[o], o, s.cmds, s.pool, s.dones);
      ConnPool(world, s.ws.conns[o], o, s.cmds, s.cmds[1..], s.pool, q, s.dones);
    }
  }

  lemma AbortCmdKeeps(world: World, s: State, e: Event)
    requires Inv(world, s) && e.Command? && s.cmds != [] && s.cmds[0].AbortCmd?
    ensures Inv(world, Next(world, s, e))
  {
    var q := AbortOwner(s.pool, s.cmds[0].owner);
    var s1 := s.(pool := q, cmds := s.cmds[1..]);
    assert Next(world, s, e) == s1 by { assert s.dones + [] == s.dones; }
    AbortHas(world, s.pool, s.cmds[0].owner);
    assert OwnersOk(s1) by { OwnersAbort(s, q); }
    assert ConnsOk(world, s1) && IdsOk(s1) by { ConnsAbort(world, s, q); }
  }

  /** Every step of either thread keeps the invariant. */
  lemma NextKeeps(world: World, s: State, e: Event)
    requires Inv(world, s) && Enabled(world, s, e)
    ensures Inv(world, Next(world, s, e))
  {
    match e
    case Elapse(_) => ElapseKeeps(world, s, e);
    case Break(_) => ElapseKeeps(world, s, e);
    case Accept(_, _, _) => AcceptKeeps(world, s, e);
    case Receive(_, _, _) => ReceiveKeeps(world, s, e);
    case Result(_) => ResultKeeps(world, s, e);
    case Tick(_) => TickKeeps(world, s, e);
    case Closing => ClosingKeeps(world, s, e);
    case Ready(_, _, _, _) => ReadyKeeps(world, s, e);
    case Command(_) => if s.cmds[0].SubmitCmd? { SubmitCmdKeeps(world, s, e); } else { AbortCmdKeeps(world, s, e); }
  }

  lemma {:induction false} RunInv(world: World, poolSize: nat, ss: seq<State>, es: seq<Event>, i: nat)
    requires IsRun(world, poolSize, ss, es) && i < |ss|
    ensures Inv(world, ss[i])
  {
    if i == 0 {
      StartInv(world, poolSize);
    } else {
      RunInv(world, poolSize, ss, es, i - 1);
      NextKeeps(world, ss[i - 1], es[i - 1]);
    }
  }
}
