/**
 The slots and the pool as the mutable objects they are
 (services/rust-sync/src/inference.rs). Every method is proved to do to the
 fields what the functions of Inference say.
 */
module InferencePool {
  import opened Octets
  import opened Stub
  import opened Http
  import opened Inference

  class PoolSlot {
    var sock: Option<Sock>
    var state: SlotState
    var owner: Option<nat>
    var tag: nat
    var request: Request
    var req: Bytes
    var resp: Bytes
    var retried: bool

    ghost function View(): Slot
      reads this
    {
      Slot(sock, state, owner, tag, request, req, resp, retried)
    }

    constructor ()
      ensures View() == EMPTY_SLOT
    {
      sock, state, owner, tag := None, Disconnected, None, 0;
      request, req, resp, retried := Request([], 0), [], [], false;
    }

    method Build(t: Target, r: Request)
      modifies this
      ensures View() == Inference.Build(t, old(View()), r)
    {
      retried := false;
      resp := [];
      request := r;
      req := Encode(t, r);
    }

    /** The slot is `owner`'s, for this request. */
    method Assign(t: Target, owner: nat, tag: nat, r: Request)
      modifies this
      ensures View() == Inference.Build(t, old(View()).(owner := Some(owner), tag := tag), r)
    {
      this.owner := Some(owner);
      this.tag := tag;
      Build(t, r);
    }

    method Dial(sockId: nat)
      modifies this
      ensures View() == Dialled(old(View()), sockId)
    {
      sock := Some(Sock(sockId, [], 0, []));
      state := Connecting;
    }

    /** The write loop of `State::Sending`. */
    method SendAll(from: nat, ws: seq<WriteResult>) returns (r: RunResult)
      requires sock.Some?
      modifies this
      ensures (View(), r) == SendLoop(old(View()), from, ws)
      ensures sock.Some?
    {
      ghost var start := View();
      var off: nat := from;
      var j := 0;
      while off < |req|
        invariant 0 <= j <= |ws| && sock.Some?
        invariant SendLoop(View(), off, ws[j..]) == SendLoop(start, from, ws)
        decreases |ws| - j
      {
        if j == |ws| || ws[j].WriteBlocked? {
          state := Sending(off);
          return Waits;
        }
        assert ws[j..][1..] == ws[j + 1..];
        match ws[j] {
          case Wrote(n) =>
            var m := if n <= |req| - off then n else |req| - off;
            if m == 0 {
              return Broken;
            }
            sock := Some(sock.value.(written := sock.value.written + req[off..off + m]));
            off := off + m;
          case WriteInterrupted =>
          case WriteFailed =>
            return Broken;
          case WriteBlocked =>
        }
        j := j + 1;
      }
      sock := Some(sock.value.(whole := sock.value.whole + [request]));
      state := Receiving;
      r := Waits;
    }

    /** The read loop of `State::Receiving`. */
    method ReadAll(rs: seq<ReadResult>) returns (r: RunResult)
      requires sock.Some?
      modifies this
      ensures (View(), r) == ReadLoop(old(View()), rs)
      ensures sock.Some?
    {
      ghost var start := View();
      var j := 0;
      while j < |rs| && !rs[j].ReadBlocked?
        invariant 0 <= j <= |rs| && sock.Some?
        invariant ReadLoop(View(), rs[j..]) == ReadLoop(start, rs)
      {
        assert rs[j..][1..] == rs[j + 1..];
        match rs[j] {
          case Read(chunk) =>
            if chunk == [] {
              return Broken;
            }
            sock := Some(sock.value.(received := sock.value.received + |chunk|));
            resp := resp + chunk;
          case ReadInterrupted =>
          case ReadFailed =>
            return Broken;
          case ReadBlocked =>
        }
        j := j + 1;
      }
      r := Waits;
    }

    /** How many states `Run` can still pass through in one call. */
    function Rank(): nat
      reads this
    {
      match state
      case Connecting => 2
      case Sending(_) => 1
      case _ => 0
    }

    /** `Slot::run`: the loop over the slot's states; every turn ends the call or moves to a later state. */
    method Run(parse: Parser, writable: bool, io: Io) returns (r: RunResult)
      requires sock.Some?
      modifies this
      ensures (View(), r) == Inference.Run(parse, old(View()), writable, io)
    {
      ghost var goal := Inference.Run(parse, View(), writable, io);
      while true
        invariant sock.Some? && Inference.Run(parse, View(), writable, io) == goal
        decreases Rank()
      {
        match state {
          case Connecting =>
            if io.connect.Refused? {
              return Broken;
            }
            if io.connect.Unfinished? {
              return Waits;
            }
            state := Sending(0);
          case Sending(off) =>
            r := SendAll(off, io.sends);
            if r.Broken? || !state.Receiving? {
              return;
            }
          case Receiving =>
            r := Receive(parse, io.recvs);
            return;
          case Idle =>
            Probe(writable, io.recvs);
            return Waits;
          case Disconnected =>
            return Waits;
        }
      }
    }

    /** `State::Receiving`: read what there is, then parse. */
    method Receive(parse: Parser, rs: seq<ReadResult>) returns (r: RunResult)
      requires sock.Some?
      modifies this
      ensures (View(), r) == RunReceiving(parse, old(View()), rs)
    {
      r := ReadAll(rs);
      if r.Broken? {
        return;
      }
      match parse(resp) {
        case Some(reply) =>
          state := Idle;
          r := Answered(reply);
        case None =>
          r := Waits;
      }
    }

    /** `State::Idle`: one octet, to notice a server close. */
    method Probe(writable: bool, rs: seq<ReadResult>)
      requires sock.Some?
      modifies this
      ensures View() == RunIdle(old(View()), writable, rs)
    {
      if !writable && rs != [] && rs[0].Read? {
        if rs[0].chunk == [] {
          sock := None;
          state := Disconnected;
        } else {
          sock := Some(sock.value.(received := sock.value.received + 1));
        }
      }
    }

    method RetryOrFail() returns (step: Step)
      modifies this
      ensures (View(), step) == Inference.RetryOrFail(old(View()))
    {
      if !retried && sock.Some? {
        retried := true;
        resp := [];
        state := Sending(0);
        sock := None;
        return Redial;
      }
      sock := None;
      state := Disconnected;
      step := Finished(Err(ConnectionReset));
    }

    method Drive(parse: Parser, writable: bool, io: Io) returns (step: Step)
      requires sock.Some?
      modifies this
      ensures (View(), step) == Inference.Drive(parse, old(View()), writable, io)
    {
      var r := Run(parse, writable, io);
      match r {
        case Broken => step := RetryOrFail();
        case Waits => step := Pending;
        case Answered(reply) => step := Finished(reply);
      }
    }
  }

  class Pool {
    var slots: seq<PoolSlot>
    var free: seq<nat>
    var nextSock: nat

    ghost predicate Valid()
      reads this
    {
      && (forall i, j :: 0 <= i < j < |slots| ==> slots[i] != slots[j])
      && (forall k :: 0 <= k < |free| ==> free[k] < |slots|)
    }

    ghost function View(): Inference.Pool
      reads this, slots
    {
      Inference.Pool(
        seq(|slots|, i requires 0 <= i < |slots| reads this, slots => slots[i].View()), free, nextSock)
    }

    constructor (size: nat)
      ensures Valid() && fresh(slots) && View() == NewPool(size)
    {
      slots, free, nextSock := [], [], 0;
      new;
      for i := 0 to size
        invariant |slots| == i && |free| == i && nextSock == 0 && fresh(slots)
        invariant forall k :: 0 <= k < i ==> slots[k].View() == EMPTY_SLOT && free[k] == size - 1 - k
        invariant forall k, l :: 0 <= k < l < i ==> slots[k] != slots[l]
      {
        var s := new PoolSlot();
        slots := slots + [s];
        free := free + [size - 1 - i];
      }
      assert View().slots == NewPool(size).slots;
      assert free == NewPool(size).free;
    }

    method Recycle(idx: nat)
      requires Valid() && idx < |slots|
      modifies this`free, slots[idx]
      ensures Valid() && View() == Inference.Recycle(old(View()), idx)
    {
      slots[idx].owner := None;
      free := free + [idx];
      assert View().slots == Inference.Recycle(old(View()), idx).slots;
    }

    method Submit(t: Target, owner: nat, tag: nat, request: Request, dialOk: bool) returns (d: Option<Done>)
      requires Valid()
      modifies this, slots
      ensures Valid() && slots == old(slots)
      ensures (View(), d) == Inference.Submit(t, old(View()), owner, tag, request, dialOk)
    {
      ghost var v := View();
      if free == [] {
        return Some(Done(owner, tag, Err(ConnectionReset)));
      }
      var idx := free[|free| - 1];
      free := free[..|free| - 1];
      var s := slots[idx];
      s.Assign(t, owner, tag, request);
      if s.sock.Some? {
        s.state := Sending(0);
      } else if dialOk {
        s.Dial(nextSock);
        nextSock := nextSock + 1;
      } else {
        s.owner := None;
        free := free + [idx];
        d := Some(Done(owner, tag, Err(ConnectionReset)));
        assert View().slots == Inference.Submit(t, v, owner, tag, request, dialOk).0.slots;
        return;
      }
      d := None;
      assert View().slots == Inference.Submit(t, v, owner, tag, request, dialOk).0.slots;
    }

    method OnEvent(parse: Parser, idx: nat, writable: bool, io: Io, dialOk: bool) returns (d: Option<Done>)
      requires Valid() && idx < |slots| && slots[idx].sock.Some?
      modifies this, slots
      ensures Valid() && slots == old(slots)
      ensures (View(), d) == Inference.OnEvent(parse, old(View()), idx, writable, io, dialOk)
    {
      ghost var v := View();
      var s := slots[idx];
      var step := s.Drive(parse, writable, io);
      ghost var v1 := v.(slots := v.slots[idx := s.View()]);
      assert View().slots == v1.slots;
      match step {
        case Pending =>
          d := None;
        case Redial =>
          if dialOk {
            s.Dial(nextSock);
            nextSock := nextSock + 1;
            d := None;
            assert View().slots == v1.slots[idx := s.View()];
          } else {
            d := if s.owner.None? then None else Some(Done(s.owner.value, s.tag, Err(ConnectionReset)));
            Recycle(idx);
          }
        case Finished(reply) =>
          d := if s.owner.None? then None else Some(Done(s.owner.value, s.tag, reply));
          Recycle(idx);
      }
    }

    /** The linear scan of `abort_owner`. */
    method FindOwner(owner: nat) returns (r: Option<nat>)
      ensures r == FirstOwned(View().slots, owner, 0)
    {
      var i := 0;
      while i < |slots|
        invariant 0 <= i <= |slots|
        invariant FirstOwned(View().slots, owner, 0) == FirstOwned(View().slots, owner, i)
      {
        if slots[i].owner == Some(owner) {
          return Some(i);
        }
        i := i + 1;
      }
      r := None;
    }

    method AbortOwner(owner: nat)
      requires Valid()
      modifies this, slots
      ensures Valid() && slots == old(slots)
      ensures View() == Inference.AbortOwner(old(View()), owner)
    {
      ghost var v := View();
      var r := FindOwner(owner);
      if r.None? {
        return;
      }
      var s := slots[r.value];
      s.sock := None;
      s.state := Disconnected;
      assert View().slots == v.slots[r.value := v.slots[r.value].(sock := None, state := Disconnected)];
      Recycle(r.value);
    }
  }
}
