/**
 The two thread loops over the mutable objects: thread A's iteration
 (services/rust-sync/src/main.rs:111-236) and thread B's command drain
 (services/rust-sync/src/inference.rs:527-545). Each loop is proved to perform
 the steps of WsLoop and Gateway.
 */
module EventLoops {
  import opened Octets
  import opened Http
  import opened Inference
  import opened Session
  import opened WsLoop
  import opened Gateway
  import opened ConnectionObject
  import InferencePool

  /** Draining results one by one. */
  function TakeResults(cfg: Config, w: Ws, ds: seq<Done>, fails: seq<bool>): Ws
    requires |fails| == |ds|
    decreases |ds|
  {
    if ds == [] then w else TakeResults(cfg, TakeResult(cfg, w, ds[0], fails[0]), ds[1..], fails[1..])
  }

  /** The whole closing loop. */
  function ReapAll(w: Ws): (Ws, seq<Cmd>)
    decreases |w.closing|
  {
    if w.closing == [] then (w, []) else
    var (w1, out) := Reap(w);
    var (w2, outs) := ReapAll(w1);
    (w2, out + outs)
  }

  lemma Joined(a: seq<Cmd>, b: seq<Cmd>, c: seq<Cmd>)
    ensures a + b + c == a + (b + c)
  {
  }

  lemma Updated(w: Ws, id: nat, c: Conn, drop: bool)
    requires w.timers != []
    ensures Rescheduled(w.(conns := w.conns[id := c]), id, c, drop) == Rescheduled(w, id, c, drop)
  {
    assert w.conns[id := c][id := c] == w.conns[id := c];
  }

  class WsThread {
    var conns: map<nat, Connection>
    var timers: seq<Timer>
    var nextId: nat
    var closing: seq<nat>
    var now: int
    /** The sending end of the command channel. */
    var cmds: seq<Cmd>

    /** The map owns its connections: each is filed under its own id. */
    ghost predicate Valid()
      reads this, conns.Values
    {
      forall id :: id in conns ==> conns[id].id == id
    }

    ghost function Views(): map<nat, Conn>
      reads this, conns.Values
    {
      map id | id in conns :: conns[id].View()
    }

    ghost function View(): Ws
      reads this, conns.Values
    {
      Ws(Views(), timers, nextId, closing, now)
    }

    constructor ()
      ensures Valid() && conns == map[] && cmds == [] && View() == START_WS
    {
      conns, timers, nextId, closing, now, cmds := map[], [], FIRST_CONN_ID, [], 0, [];
    }

    method Accept(cfg: Config, registered: bool, at: int, phase: nat)
      requires Valid()
      modifies this
      ensures Valid() && View() == AcceptConn(cfg, old(View()), registered, at, phase) && cmds == old(cmds)
    {
      ghost var v := View();
      var id := nextId;
      nextId := nextId + 1;
      if !registered {
        return;
      }
      var c := new Connection(id, cfg, at, phase);
      var d := c.GetDeadline();
      timers := Push(timers, Timer(d, id));
      conns := conns[id := c];
      assert Views() == v.conns[id := c.View()];
    }

    /** One drained result. */
    method OnResult(cfg: Config, d: Done, fails: bool)
      requires Valid()
      modifies this, conns.Values
      ensures Valid() && conns == old(conns) && cmds == old(cmds)
      ensures View() == TakeResult(cfg, old(View()), d, fails)
    {
      if d.owner in conns {
        ghost var v := View();
        var c := conns[d.owner];
        var delivered := c.OnDone(cfg, d.tag, d.reply);
        assert Views() == v.conns[d.owner := c.View()];
        if delivered && fails {
          closing := closing + [d.owner];
        }
      }
    }

    method DrainResults(cfg: Config, ds: seq<Done>, fails: seq<bool>)
      requires Valid() && |fails| == |ds|
      modifies this, conns.Values
      ensures Valid() && conns == old(conns) && cmds == old(cmds)
      ensures View() == TakeResults(cfg, old(View()), ds, fails)
    {
      ghost var start := View();
      var i := 0;
      while i < |ds|
        invariant 0 <= i <= |ds| && Valid() && conns == old(conns) && cmds == old(cmds)
        invariant TakeResults(cfg, View(), ds[i..], fails[i..]) == TakeResults(cfg, start, ds, fails)
      {
        assert ds[i..][1..] == ds[i + 1..] && fails[i..][1..] == fails[i + 1..];
        OnResult(cfg, ds[i], fails[i]);
        i := i + 1;
      }
    }

    /** Ticks connection `c` and acts on the tick; `cmd` is what goes to thread B. */
    static method HandleTick(c: Connection, cfg: Config, now: int) returns (timedOut: bool, cmd: seq<Cmd>)
      modifies c
      ensures c.View() == Handled(cfg, old(c.View()), now)
      ensures timedOut == TimedOut(old(c.View()), now)
      ensures cmd == TickCmd(cfg, old(c.View()), c.id, now)
    {
      var tick := c.OnTimer(cfg, now);
      timedOut := tick.TickTimeout?;
      match tick {
        case TickKeep =>
          cmd := [];
        case TickFlush(batch) =>
          cmd := [SubmitCmd(c.id, batch.Tag(), Request(c.pcm, cfg.passes))];
          c.BeginPending(batch, now);
        case TickTimeout =>
          c.Deliver(cfg, Err(Timeout));
          cmd := [AbortCmd(c.id)];
      }
    }

    /** Connection `id` handles its tick; every other connection is untouched. */
    method TickConn(cfg: Config, id: nat) returns (timedOut: bool, deadline: int, cmd: seq<Cmd>)
      requires Valid() && id in conns
      modifies conns[id]
      ensures Valid() && View() == old(View()).(conns := old(Views())[id := Handled(cfg, old(Views())[id], now)])
      ensures deadline == Deadline(Views()[id])
      ensures timedOut == TimedOut(old(Views())[id], now)
      ensures cmd == TickCmd(cfg, old(Views())[id], id, now)
    {
      var c := conns[id];
      timedOut, cmd := HandleTick(c, cfg, now);
      deadline := c.GetDeadline();
    }

    /** One due timer entry. */
    method OnTimerEntry(cfg: Config, fails: bool)
      requires Valid() && Due(View())
      modifies this, conns.Values
      ensures Valid() && conns == old(conns)
      ensures View() == TakeTimer(cfg, old(View()), fails).0
      ensures cmds == old(cmds) + TakeTimer(cfg, old(View()), fails).1
    {
      var id := timers[0].id;
      if id !in conns {
        timers := timers[1..];
        assert cmds + [] == cmds;
      } else {
        ghost var w := View();
        ghost var c, drop := TakeLive(cfg, fails, id);
      }
    }

    /** The due entry of a connection that is still open. */
    method TakeLive(cfg: Config, fails: bool, id: nat) returns (ghost c: Conn, ghost drop: bool)
      requires Valid() && id in conns && timers != []
      modifies this, conns.Values
      ensures Valid() && conns == old(conns)
      ensures c == Handled(cfg, old(Views())[id], old(now)) && drop == (TimedOut(old(Views())[id], old(now)) && fails)
      ensures View() == Rescheduled(old(View()).(conns := old(Views())[id := c]), id, c, drop)
      ensures cmds == old(cmds) + TickCmd(cfg, old(Views())[id], id, old(now))
    {
      var timedOut, deadline, cmd := TickConn(cfg, id);
      c, drop := Views()[id], timedOut && fails;
      Send(cmd);
      Reschedule(id, timedOut && fails, deadline);
    }

    /** Hands commands to thread B. */
    method Send(out: seq<Cmd>)
      requires Valid()
      modifies this`cmds
      ensures Valid() && View() == old(View()) && cmds == old(cmds) + out
    {
      cmds := cmds + out;
      assert Views() == old(Views());
    }

    /** The head of the timer queue goes back in, or its connection is to be closed. */
    method Reschedule(id: nat, drop: bool, deadline: int)
      requires Valid() && timers != [] && id in conns && deadline == Deadline(Views()[id])
      modifies this`timers, this`closing
      ensures Valid() && View() == Rescheduled(old(View()), id, old(Views())[id], drop)
    {
      assert View().conns == View().conns[id := Views()[id]];
      if drop {
        timers := timers[1..];
        closing := closing + [id];
      } else {
        timers := Push(timers[1..], Timer(deadline, id));
      }
    }

    /** The timer loop: terminates, and leaves no connection that stays open overdue. */
    method RunTimers(cfg: Config, fails: seq<bool>)
      requires Valid() && cfg.flushInterval >= 1 && TimersOk(View())
      modifies this, conns.Values
      ensures Valid() && conns == old(conns)
      ensures View() == TimerPass(cfg, old(View()), fails).0
      ensures cmds == old(cmds) + TimerPass(cfg, old(View()), fails).1
      ensures NoneOverdue(View())
    {
      ghost var all := TimerPass(cfg, View(), fails);
      TimerPassSettles(cfg, View(), fails);
      ghost var w, out: seq<Cmd> := View(), [];
      var rest := fails;
      while timers != [] && timers[0].at <= now
        invariant Valid() && conns == old(conns) && View() == w && TimersOk(w)
        invariant cmds == old(cmds) + out
        invariant all.0 == TimerPass(cfg, w, rest).0 && all.1 == out + TimerPass(cfg, w, rest).1
        decreases Work(w.conns, w.now, w.timers)
      {
        var f := rest != [] && rest[0];
        TimerPassStep(cfg, w, rest);
        OnTimerEntry(cfg, f);
        ghost var sent := TakeTimer(cfg, w, f).1;
        w := TakeTimer(cfg, w, f).0;
        rest := if rest == [] then [] else rest[1..];
        Joined(old(cmds), out, sent);
        Joined(out, sent, TimerPass(cfg, w, rest).1);
        out := out + sent;
      }
    }

    /** One connection to close. */
    method CloseOne()
      requires Valid() && closing != []
      modifies this
      ensures Valid() && View() == Reap(old(View())).0 && cmds == old(cmds) + Reap(old(View())).1
    {
      ghost var v := View();
      var id := closing[0];
      closing := closing[1..];
      if id !in conns {
        assert cmds + [] == cmds;
        return;
      }
      if conns[id].pending.Some? {
        cmds := cmds + [AbortCmd(id)];
      } else {
        assert cmds + [] == cmds;
      }
      conns := conns - {id};
      assert Views() == v.conns - {id};
    }

    /** The closing loop. */
    method CloseAll()
      requires Valid()
      modifies this
      ensures Valid() && closing == []
      ensures View() == ReapAll(old(View())).0 && cmds == old(cmds) + ReapAll(old(View())).1
    {
      ghost var all := ReapAll(View());
      ghost var out: seq<Cmd> := [];
      while closing != []
        invariant Valid() && cmds == old(cmds) + out
        invariant ReapAll(View()).0 == all.0 && out + ReapAll(View()).1 == all.1
        decreases |closing|
      {
        ghost var v := View();
        ghost var sent := Reap(v).1;
        CloseOne();
        Joined(old(cmds), out, sent);
        Joined(out, sent, ReapAll(View()).1);
        assert ReapAll(v) == (ReapAll(View()).0, sent + ReapAll(View()).1);
        out := out + sent;
      }
    }
  }

  /** Thread B executing a batch of commands, in order. */
  function ExecuteAll(t: Target, p: Pool, cmds: seq<Cmd>, dials: seq<bool>): (Pool, seq<Done>)
    requires |dials| == |cmds|
    decreases |cmds|
  {
    if cmds == [] then (p, []) else
    var n := |cmds| - 1;
    var (p1, ds) := ExecuteAll(t, p, cmds[..n], dials[..n]);
    var (p2, d) := Execute(t, p1, cmds[n], dials[n]);
    (p2, ds + Sent(d))
  }

  /** One command. */
  method RunCommand(pool: InferencePool.Pool, t: Target, cmd: Cmd, dialOk: bool) returns (d: Option<Done>)
    requires pool.Valid()
    modifies pool, pool.slots
    ensures pool.Valid() && pool.slots == old(pool.slots)
    ensures (pool.View(), d) == Execute(t, old(pool.View()), cmd, dialOk)
  {
    match cmd {
      case SubmitCmd(owner, tag, request) =>
        d := pool.Submit(t, owner, tag, request, dialOk);
      case AbortCmd(owner) =>
        pool.AbortOwner(owner);
        d := None;
    }
  }

  /** The drain loop of thread B. */
  method DrainCommands(pool: InferencePool.Pool, t: Target, cmds: seq<Cmd>, dials: seq<bool>) returns (dones: seq<Done>)
    requires pool.Valid() && |dials| == |cmds|
    modifies pool, pool.slots
    ensures pool.Valid() && pool.slots == old(pool.slots)
    ensures (pool.View(), dones) == ExecuteAll(t, old(pool.View()), cmds, dials)
  {
    ghost var start := pool.View();
    dones := [];
    for i := 0 to |cmds|
      invariant pool.Valid() && pool.slots == old(pool.slots)
      invariant (pool.View(), dones) == ExecuteAll(t, start, cmds[..i], dials[..i])
    {
      assert cmds[..i + 1][..i] == cmds[..i] && dials[..i + 1][..i] == dials[..i];
      var d := RunCommand(pool, t, cmds[i], dials[i]);
      dones := dones + Sent(d);
    }
    assert cmds[..|cmds|] == cmds && dials[..|cmds|] == dials;
  }
}
