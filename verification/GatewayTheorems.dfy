/** What the gateway guarantees in every state of every run. */
module GatewayTheorems {
  import opened Octets
  import opened Stub
  import opened Http
  import opened Ranges
  import opened Inference
  import opened Session
  import opened WsLoop
  import opened Gateway
  import opened GatewayProof

  /** Connection `o` of state `s`, open or closed. */
  ghost predicate IsConn(s: State, o: nat, c: Conn)
  {
    (o in s.ws.conns && s.ws.conns[o] == c) || (o in s.gone && s.gone[o] == c)
  }

  /** The part of the invariant that is about one connection alone. */
  lemma EveryConn(world: World, poolSize: nat, ss: seq<State>, es: seq<Event>, i: nat, o: nat, c: Conn)
    requires IsRun(world, poolSize, ss, es) && i < |ss| && IsConn(ss[i], o, c)
    ensures ConnOk(c) && AllTruthful(world, c)
  {
    RunInv(world, poolSize, ss, es, i);
  }

  /**
   No misattribution. In every interleaving, a partial sent on a connection for
   frames o..n carries the stub's answer to exactly that connection's frames
   o..n, concatenated in order.
   */
  lemma PartialsAreTruthful(world: World, poolSize: nat, ss: seq<State>, es: seq<Event>, i: nat,
                            o: nat, c: Conn, k: nat)
    requires IsRun(world, poolSize, ss, es) && i < |ss| && IsConn(ss[i], o, c)
    requires GoodPeer(world.peer) && k < |c.sent| && c.sent[k].Partial?
    ensures
      var r := c.sent[k];
      && 1 <= r.range.oldest <= r.range.newest <= |c.received|
      && r.infer == ComputeStub(Concat(c.received[r.range.oldest - 1..r.range.newest]), world.cfg.passes)
  {
    EveryConn(world, poolSize, ss, es, i, o, c);
    assert Truthful(world, c, c.sent[k]);
  }

  /** The pending range, if any, and the buffered range, if any. */
  function Unanswered(c: Conn): seq<Range>
    requires FlushedTo(c) >= 0
  {
    (if c.pending.Some? then [c.pending.value.batch.range] else [])
    + (if c.meta != [] then [Range(FlushedTo(c) + 1, c.seqNo)] else [])
  }

  /**
   Nothing lost, repeated or reordered. In every state the answered ranges, the
   pending batch and the buffer tile 1..seq; and each flushed batch has been
   answered exactly once, in flush order, except the one still pending.
   */
  lemma FramesAreTiled(world: World, poolSize: nat, ss: seq<State>, es: seq<Event>, i: nat, o: nat, c: Conn)
    requires IsRun(world, poolSize, ss, es) && i < |ss| && IsConn(ss[i], o, c)
    ensures FlushedTo(c) >= 0 && c.seqNo == |c.received|
    ensures Tiles(RangesOf(c.sent) + Unanswered(c), c.seqNo)
    ensures |c.sent| == |c.flushed| - (if c.pending.Some? then 1 else 0)
    ensures forall k :: 0 <= k < |c.sent| ==> c.sent[k].range == c.flushed[k]
    ensures c.pending.Some? ==> c.pending.value.batch.range == c.flushed[|c.flushed| - 1]
  {
    EveryConn(world, poolSize, ss, es, i, o, c);
    ConnTiled(c);
  }

  lemma ConnTiled(c: Conn)
    requires ConnOk(c)
    ensures FlushedTo(c) >= 0 && c.seqNo == |c.received|
    ensures Tiles(RangesOf(c.sent) + Unanswered(c), c.seqNo)
    ensures |c.sent| == |c.flushed| - (if c.pending.Some? then 1 else 0)
    ensures forall k :: 0 <= k < |c.sent| ==> c.sent[k].range == c.flushed[k]
    ensures c.pending.Some? ==> c.pending.value.batch.range == c.flushed[|c.flushed| - 1]
  {
    assert forall k :: 0 <= k < |c.sent| ==> c.sent[k].range == RangesOf(c.sent)[k];
    assert RangesOf(c.sent) + Unanswered(c) ==
           c.flushed + (if c.meta != [] then [Range(FlushedTo(c) + 1, c.seqNo)] else []);
    if c.meta != [] {
      TilesSnoc(c.flushed, FlushedTo(c), Range(FlushedTo(c) + 1, c.seqNo));
    } else {
      assert c.flushed + [] == c.flushed;
    }
  }

  /**
   One slot per connection, and an abort never hits a later batch: of the slots
   held for a batch that is still pending, executing the abort at the head of the
   queue changes none, and it leaves its owner without a slot.
   */
  lemma AbortFreesOnlyGivenUpBatch(world: World, poolSize: nat, ss: seq<State>, es: seq<Event>, i: nat)
    requires IsRun(world, poolSize, ss, es) && i < |ss| && ss[i].cmds != [] && ss[i].cmds[0].AbortCmd?
    ensures
      var s := ss[i];
      var owner := s.cmds[0].owner;
      var p := AbortOwner(s.pool, owner);
      && |p.slots| == |s.pool.slots|
      && (forall j, k, o :: Owns(s.pool, j, o) && Owns(s.pool, k, o) ==> j == k)
      && (forall j, o :: Owns(s.pool, j, o) && PendingTag(s.ws, o) == Some(s.pool.slots[j].tag) ==>
            p.slots[j] == s.pool.slots[j])
      && (forall j :: !Owns(p, j, owner))
  {
    RunInv(world, poolSize, ss, es, i);
    var s := ss[i];
    var owner := s.cmds[0].owner;
    AbortKeeps(world.peer, s.pool, owner);
    forall j, k, o | Owns(s.pool, j, o) && Owns(s.pool, k, o)
      ensures j == k
    {
      OneSlot(s, j, k, o);
    }
    forall j, o | Owns(s.pool, j, o) && PendingTag(s.ws, o) == Some(s.pool.slots[j].tag)
      ensures AbortOwner(s.pool, owner).slots[j] == s.pool.slots[j]
    {
      if o == owner { GivenUp(s, j); }
    }
    forall j
      ensures !Owns(AbortOwner(s.pool, owner), j, owner)
    {
      AbortEmpties(world, s, j);
    }
  }

  lemma OneSlot(s: State, j: nat, k: nat, o: nat)
    requires OwnersOk(s) && Owns(s.pool, j, o) && Owns(s.pool, k, o)
    ensures j == k
  {
    assert OwnerOk(For(s.cmds, o), s.pool, s.dones, o, PendingTag(s.ws, o));
  }

  /** The slot an abort finds was submitted before everything still queued, so its batch is not pending. */
  lemma GivenUp(s: State, j: nat)
    requires OwnersOk(s) && s.cmds != [] && s.cmds[0].AbortCmd? && Owns(s.pool, j, s.cmds[0].owner)
    ensures PendingTag(s.ws, s.cmds[0].owner) != Some(s.pool.slots[j].tag)
  {
    var o := s.cmds[0].owner;
    ForTail(s.cmds, o);
    assert OwnerOk(For(s.cmds, o), s.pool, s.dones, o, PendingTag(s.ws, o));
  }

  lemma AbortEmpties(world: World, s: State, j: int)
    requires PoolInv(world.peer, s.pool) && OwnersOk(s) && s.cmds != [] && s.cmds[0].AbortCmd?
    ensures !Owns(AbortOwner(s.pool, s.cmds[0].owner), j, s.cmds[0].owner)
  {
    var owner := s.cmds[0].owner;
    AbortKeeps(world.peer, s.pool, owner);
    var r := FirstOwned(s.pool.slots, owner, 0);
    if r.Some? && Owns(s.pool, j, owner) {
      assert Owns(s.pool, r.value, owner);
      OneSlot(s, j, r.value, owner);
    }
  }

  /**
   No slot leaks. The free list and the owned slots partition the pool; a slot
   none of whose owner's commands is queued belongs to an open connection that
   waits for exactly that slot's batch. In particular this holds of every owned
   slot whenever the command queue is empty.
   */
  lemma NoSlotLeaks(world: World, poolSize: nat, ss: seq<State>, es: seq<Event>, i: nat, j: nat, o: nat)
    requires IsRun(world, poolSize, ss, es) && i < |ss|
    requires Owns(ss[i].pool, j, o) && (forall k :: 0 <= k < |ss[i].cmds| ==> ss[i].cmds[k].owner != o)
    ensures Partition(ss[i].pool)
    ensures o in ss[i].ws.conns && PendingTag(ss[i].ws, o) == Some(ss[i].pool.slots[j].tag)
  {
    RunInv(world, poolSize, ss, es, i);
    var s := ss[i];
    ForNone(s.cmds, o);
    assert OwnerOk(For(s.cmds, o), s.pool, s.dones, o, PendingTag(s.ws, o));
  }

  lemma {:induction false} ForNone(cmds: seq<Cmd>, o: nat)
    requires forall k :: 0 <= k < |cmds| ==> cmds[k].owner != o
    ensures For(cmds, o) == []
    decreases |cmds|
  {
    if cmds != [] { ForNone(cmds[..|cmds| - 1], o); }
  }

  /**
   No pending batch is forgotten: its submit is the last command queued for its
   connection, or it occupies a slot, or its result is on its way back.
   */
  lemma PendingIsUnderWay(world: World, poolSize: nat, ss: seq<State>, es: seq<Event>, i: nat, o: nat)
    requires IsRun(world, poolSize, ss, es) && i < |ss| && PendingTag(ss[i].ws, o).Some?
    ensures
      var s := ss[i];
      var tag := PendingTag(s.ws, o).value;
      var q := For(s.cmds, o);
      || (q != [] && q[|q| - 1].SubmitCmd? && q[|q| - 1].tag == tag)
      || (exists j :: Owns(s.pool, j, o) && s.pool.slots[j].tag == tag)
      || Reported(s.dones, o, tag)
  {
    RunInv(world, poolSize, ss, es, i);
  }

}
