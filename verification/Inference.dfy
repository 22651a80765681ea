/**
 Thread B's bounded pool of keep-alive HTTP/1.1 connections
 (services/rust-sync/src/inference.rs): the per-slot state machine, the free
 list, and what the peer at the other end of a socket may send.

 Socket calls are inputs: a `drive` is given the results its `connect`, `write`
 and `read` calls return. A list that runs out stands for WouldBlock.
 */
module Inference {
  import opened Octets
  import opened Stub
  import opened Http

  datatype SlotState = Disconnected | Connecting | Idle | Sending(off: nat) | Receiving

  /**
   An open socket: the octets written to it, the number read from it, and (for
   the statements below) the requests that have been written to it in full.
   */
  datatype Sock = Sock(id: nat, written: Bytes, received: nat, whole: seq<Request>)

  datatype Slot = Slot(
    sock: Option<Sock>, state: SlotState, owner: Option<nat>, tag: nat,
    request: Request, req: Bytes, resp: Bytes, retried: bool)

  const EMPTY_SLOT := Slot(None, Disconnected, None, 0, Request([], 0), [], [], false)

  datatype ConnectResult = Refused | Unfinished | Established
  /** `Wrote(0)` is `Ok(0)`, which the code reports as WriteZero. */
  datatype WriteResult = Wrote(n: nat) | WriteBlocked | WriteInterrupted | WriteFailed
  /** `Read([])` is `Ok(0)`: end of file. */
  datatype ReadResult = Read(chunk: Bytes) | ReadBlocked | ReadInterrupted | ReadFailed

  datatype Io = Io(connect: ConnectResult, sends: seq<WriteResult>, recvs: seq<ReadResult>)

  datatype RunResult = Broken | Waits | Answered(reply: Reply)
  datatype Step = Pending | Redial | Finished(reply: Reply)

  // ------------------------------------------------------------------ one slot

  function Build(t: Target, sl: Slot, request: Request): Slot
  {
    sl.(request := request, req := Encode(t, request), resp := [], retried := false)
  }

  /** A successful `TcpStream::connect`. */
  function Dialled(sl: Slot, sockId: nat): Slot
  {
    sl.(sock := Some(Sock(sockId, [], 0, [])), state := Connecting)
  }

  /** The write loop of `State::Sending`, from offset `off`. */
  function SendLoop(sl: Slot, off: nat, ws: seq<WriteResult>): (Slot, RunResult)
    requires sl.sock.Some?
    decreases |ws|
  {
    if off >= |sl.req| then
      (sl.(state := Receiving, sock := Some(sl.sock.value.(whole := sl.sock.value.whole + [sl.request]))), Waits)
    else if ws == [] || ws[0].WriteBlocked? then (sl.(state := Sending(off)), Waits)
    else match ws[0]
      case WriteInterrupted => SendLoop(sl, off, ws[1..])
      case WriteFailed => (sl, Broken)
      case Wrote(n) =>
        var m := if n <= |sl.req| - off then n else |sl.req| - off;
        if m == 0 then (sl, Broken)
        else
          var k := sl.sock.value;
          SendLoop(sl.(sock := Some(k.(written := k.written + sl.req[off..off + m]))), off + m, ws[1..])
  }

  /** The read loop of `State::Receiving`. */
  function ReadLoop(sl: Slot, rs: seq<ReadResult>): (Slot, RunResult)
    requires sl.sock.Some?
    decreases |rs|
  {
    if rs == [] || rs[0].ReadBlocked? then (sl, Waits)
    else match rs[0]
      case ReadInterrupted => ReadLoop(sl, rs[1..])
      case ReadFailed => (sl, Broken)
      case Read(chunk) =>
        if chunk == [] then (sl, Broken)
        else
          var k := sl.sock.value;
          ReadLoop(sl.(sock := Some(k.(received := k.received + |chunk|)), resp := sl.resp + chunk), rs[1..])
  }

  function RunReceiving(parse: Parser, sl: Slot, rs: seq<ReadResult>): (Slot, RunResult)
    requires sl.sock.Some?
  {
    var (sl1, r) := ReadLoop(sl, rs);
    if r.Broken? then (sl1, Broken)
    else match parse(sl1.resp)
      case Some(reply) => (sl1.(state := Idle), Answered(reply))
      case None => (sl1, Waits)
  }

  function RunSending(parse: Parser, sl: Slot, off: nat, io: Io): (Slot, RunResult)
    requires sl.sock.Some?
  {
    var (sl1, r) := SendLoop(sl, off, io.sends);
    if r.Broken? || !sl1.state.Receiving? || sl1.sock.None? then (sl1, r)
    else RunReceiving(parse, sl1, io.recvs)
  }

  /** A free keep-alive socket became ready: probe one octet to notice a server close. */
  function RunIdle(sl: Slot, writable: bool, rs: seq<ReadResult>): Slot
    requires sl.sock.Some?
  {
    if writable || rs == [] || !rs[0].Read? then sl
    else if rs[0].chunk == [] then sl.(sock := None, state := Disconnected)
    else sl.(sock := Some(sl.sock.value.(received := sl.sock.value.received + 1)))
  }

  /** `Slot::run`. */
  function Run(parse: Parser, sl: Slot, writable: bool, io: Io): (Slot, RunResult)
    requires sl.sock.Some?
  {
    match sl.state
    case Connecting => (
      match io.connect
      case Refused => (sl, Broken)
      case Unfinished => (sl, Waits)
      case Established => RunSending(parse, sl.(state := Sending(0)), 0, io))
    case Sending(off) => RunSending(parse, sl, off, io)
    case Receiving => RunReceiving(parse, sl, io.recvs)
    case Idle => (RunIdle(sl, writable, io.recvs), Waits)
    case Disconnected => (sl, Waits)
  }

  /** `Slot::retry_or_fail`: the first failure redials and resends, the second is reported. */
  function RetryOrFail(sl: Slot): (Slot, Step)
  {
    if !sl.retried && sl.sock.Some?
    then (sl.(retried := true, resp := [], state := Sending(0), sock := None), Redial)
    else (sl.(sock := None, state := Disconnected), Finished(Err(ConnectionReset)))
  }

  /** `Slot::drive`. */
  function Drive(parse: Parser, sl: Slot, writable: bool, io: Io): (Slot, Step)
    requires sl.sock.Some?
  {
    var (sl1, r) := Run(parse, sl, writable, io);
    match r
    case Broken => RetryOrFail(sl1)
    case Waits => (sl1, Pending)
    case Answered(reply) => (sl1, Finished(reply))
  }

  // ------------------------------------------------------------------ the peer

  /** The inference server seen from the gateway: its reply to the k-th request on socket `id`. */
  datatype Peer = Peer(target: Target, parse: Parser, respond: (nat, nat, Request) -> Bytes)

  function Replies(p: Peer, id: nat, rs: seq<Request>): Bytes
    decreases |rs|
  {
    if rs == [] then []
    else Replies(p, id, rs[..|rs| - 1]) + p.respond(id, |rs| - 1, rs[|rs| - 1])
  }

  /** All the server will ever send, given what has been written: one reply per whole request. */
  ghost function Served(p: Peer, k: Sock): Bytes
  {
    Replies(p, k.id, Requests(p.target, k.written))
  }

  /** Every reply is exactly one response, and a successful one is the stub's answer to the request. */
  ghost predicate GoodPeer(p: Peer)
  {
    forall id, n, r :: GoodReply(p, r, p.respond(id, n, r))
  }

  ghost predicate GoodReply(p: Peer, r: Request, b: Bytes)
  {
    && ExactReply(p.parse, b)
    && (p.parse(b).value.Ok? ==>
          p.parse(b).value.infer == ComputeStub(r.body, r.passes))
  }

  function DataOf(rs: seq<ReadResult>): Bytes
  {
    if rs == [] then [] else (if rs[0].Read? then rs[0].chunk else []) + DataOf(rs[1..])
  }

  /** What the reads return is the next stretch of what the server sends. */
  ghost predicate Delivers(p: Peer, k: Sock, rs: seq<ReadResult>)
  {
    k.received <= |Served(p, k)| && DataOf(rs) <= Served(p, k)[k.received..]
  }

  /** The socket from which a drive of `sl` reads: `sl`'s own, after its writes. */
  function ReadSock(sl: Slot, io: Io): Option<Sock>
    requires sl.sock.Some?
  {
    match sl.state
    case Connecting => if io.connect.Established? then SendLoop(sl.(state := Sending(0)), 0, io.sends).0.sock else None
    case Sending(off) => SendLoop(sl, off, io.sends).0.sock
    case _ => sl.sock
  }

  ghost predicate Legal(p: Peer, sl: Slot, io: Io)
    requires sl.sock.Some?
  {
    ReadSock(sl, io).Some? ==> Delivers(p, ReadSock(sl, io).value, io.recvs)
  }

  // ------------------------------------------------------------- slot invariant

  /**
   What a socket carries. A free slot's socket (if any) is idle and has carried
   whole requests only; a busy slot's socket has carried whole requests and then
   the part of its own request that the send offset says.
   */
  ghost predicate WireOk(t: Target, sl: Slot)
  {
    match sl.sock
    case None => sl.owner.None? && (sl.state.Disconnected? || sl.state.Sending?)
    case Some(k) =>
      if sl.owner.None? then sl.state.Idle? && k.written == Wire(t, k.whole)
      else
        && sl.req == Encode(t, sl.request)
        && (match sl.state
            case Connecting => k.whole == [] && k.written == []
            case Sending(off) => off <= |sl.req| && k.written == Wire(t, k.whole) + sl.req[..off]
            case Receiving => k.whole != [] && k.whole[|k.whole| - 1] == sl.request && k.written == Wire(t, k.whole)
            case _ => false)
  }

  /** What has been read: every earlier reply, then the part of the current one that `resp` holds. */
  ghost predicate ReadOk(p: Peer, sl: Slot)
  {
    match sl.sock
    case None => true
    case Some(k) =>
      if sl.owner.None? then k.received == |Replies(p, k.id, k.whole)|
      else match sl.state
        case Receiving =>
          k.whole != [] &&
          var n := |k.whole| - 1;
          && k.received == |Replies(p, k.id, k.whole[..n])| + |sl.resp|
          && sl.resp <= p.respond(k.id, n, k.whole[n])
        case _ => sl.resp == [] && k.received == |Replies(p, k.id, k.whole)|
  }

  ghost predicate SlotOk(p: Peer, sl: Slot)
  {
    WireOk(p.target, sl) && (GoodPeer(p) ==> ReadOk(p, sl))
  }

  /** A socket that has carried whole requests only is owed exactly their replies. */
  lemma ServedWhole(p: Peer, k: Sock)
    requires k.written == Wire(p.target, k.whole)
    ensures Served(p, k) == Replies(p, k.id, k.whole)
  {
    var cur := Request([], 0);
    RequestsOf(p.target, k.whole, cur, 0);
    assert k.written + Encode(p.target, cur)[..0] == k.written;
  }

  /** The write loop: only the next octets of the request are written, in order. */
  lemma {:induction false} SendLoopWrites(sl: Slot, base: Bytes, off: nat, ws: seq<WriteResult>)
    requires sl.sock.Some? && off <= |sl.req| && sl.sock.value.written == base + sl.req[..off]
    ensures
      var (sl1, r) := SendLoop(sl, off, ws);
      && sl1 == sl.(state := sl1.state, sock := sl1.sock)
      && sl1.sock.Some?
      && sl1.sock.value == sl.sock.value.(written := sl1.sock.value.written, whole := sl1.sock.value.whole)
      && !r.Answered?
      && (r.Waits? ==>
            || (sl1.state.Sending? && sl1.state.off <= |sl.req|
                && sl1.sock.value.whole == sl.sock.value.whole
                && sl1.sock.value.written == base + sl.req[..sl1.state.off])
            || (sl1.state.Receiving?
                && sl1.sock.value.whole == sl.sock.value.whole + [sl.request]
                && sl1.sock.value.written == base + sl.req))
    decreases |ws|
  {
    if off >= |sl.req| {
      assert sl.req[..off] == sl.req;
    } else if ws != [] {
      match ws[0]
      case WriteInterrupted => SendLoopWrites(sl, base, off, ws[1..]);
      case Wrote(n) =>
        var m := if n <= |sl.req| - off then n else |sl.req| - off;
        if m > 0 {
          assert base + sl.req[..off] + sl.req[off..off + m] == base + sl.req[..off + m];
          var k := sl.sock.value;
          SendLoopWrites(sl.(sock := Some(k.(written := k.written + sl.req[off..off + m]))), base, off + m, ws[1..]);
        }
      case WriteFailed =>
      case WriteBlocked =>
    }
  }

  /** The read loop: what it adds to the response is the next stretch the server sends. */
  lemma {:induction false} ReadLoopReads(sl: Slot, rs: seq<ReadResult>)
    requires sl.sock.Some?
    ensures
      var (sl1, r) := ReadLoop(sl, rs);
      && !r.Answered?
      && sl1.sock.Some?
      && sl1 == sl.(resp := sl1.resp, sock := Some(sl.sock.value.(received := sl1.sock.value.received)))
      && sl.resp <= sl1.resp
      && sl1.sock.value.received == sl.sock.value.received + |sl1.resp| - |sl.resp|
      && sl1.resp[|sl.resp|..] <= DataOf(rs)
    decreases |rs|
  {
    if rs != [] && !rs[0].ReadBlocked? {
      match rs[0]
      case ReadInterrupted => ReadLoopReads(sl, rs[1..]);
      case ReadFailed =>
      case Read(chunk) =>
        if chunk != [] {
          var k := sl.sock.value;
          var sl0 := sl.(sock := Some(k.(received := k.received + |chunk|)), resp := sl.resp + chunk);
          ReadLoopReads(sl0, rs[1..]);
          var sl1 := ReadLoop(sl0, rs[1..]).0;
          assert sl1.resp[|sl.resp|..] == chunk + sl1.resp[|sl0.resp|..];
        }
    }
  }

  /** A prefix of an exact reply on which the parser answers is the whole reply. */
  lemma AnswerIsWhole(parse: Parser, b: Bytes, resp: Bytes)
    requires ExactReply(parse, b) && resp <= b && parse(resp).Some?
    ensures resp == b
  {
    assert resp == b[..|resp|];
  }

  ghost predicate ReceivingOk(p: Peer, sl: Slot)
  {
    sl.owner.Some? && sl.sock.Some? && sl.state.Receiving? && SlotOk(p, sl)
  }

  lemma GrowsWithin(before: Bytes, b: Bytes, resp: Bytes, added: Bytes)
    requires resp <= b && added <= (before + b)[|before| + |resp|..]
    ensures resp + added <= b
  {
    assert (before + b)[|before| + |resp|..] == b[|resp|..];
    assert b == b[..|resp|] + b[|resp|..];
  }

  /** The response buffer only ever holds a prefix of the reply to the current request. */
  lemma ReceivedWithin(p: Peer, k: Sock, resp: Bytes, added: Bytes)
    requires k.whole != [] && k.written == Wire(p.target, k.whole)
    requires
      var n := |k.whole| - 1;
      && k.received == |Replies(p, k.id, k.whole[..n])| + |resp|
      && resp <= p.respond(k.id, n, k.whole[n])
      && k.received <= |Served(p, k)| && added <= Served(p, k)[k.received..]
    ensures resp + added <= p.respond(k.id, |k.whole| - 1, k.whole[|k.whole| - 1])
  {
    ServedWhole(p, k);
    var n := |k.whole| - 1;
    GrowsWithin(Replies(p, k.id, k.whole[..n]), p.respond(k.id, n, k.whole[n]), resp, added);
  }

  /** A slot that has sent its request whole and holds a prefix of the reply. */
  ghost predicate Awaiting(p: Peer, sl: Slot)
  {
    && sl.sock.Some? && sl.sock.value.whole != [] && sl.sock.value.written == Wire(p.target, sl.sock.value.whole)
    && (GoodPeer(p) ==> Partway(p, sl.sock.value, sl.resp))
  }

  ghost predicate Partway(p: Peer, k: Sock, resp: Bytes)
    requires k.whole != []
  {
    var n := |k.whole| - 1;
    k.received == |Replies(p, k.id, k.whole[..n])| + |resp| && resp <= p.respond(k.id, n, k.whole[n])
  }

  /** `sl1` is the slot `sl` after some reads. */
  ghost predicate ReadTo(p: Peer, sl: Slot, sl1: Slot)
  {
    && sl.sock.Some? && sl.sock.value.whole != [] && sl1.sock.Some?
    && sl1 == sl.(resp := sl1.resp, sock := Some(sl.sock.value.(received := sl1.sock.value.received)))
    && (GoodPeer(p) ==> Partway(p, sl1.sock.value, sl1.resp))
  }

  lemma ReadsFurther(p: Peer, k: Sock, k1: Sock, resp: Bytes, resp1: Bytes)
    requires k.whole != [] && k.written == Wire(p.target, k.whole) && Partway(p, k, resp)
    requires k1 == k.(received := k.received + |resp1| - |resp|) && resp <= resp1
    requires k.received <= |Served(p, k)| && resp1[|resp|..] <= Served(p, k)[k.received..]
    ensures Partway(p, k1, resp1)
  {
    ReceivedWithin(p, k, resp, resp1[|resp|..]);
    assert resp1 == resp + resp1[|resp|..];
  }

  lemma ReadsTo(p: Peer, sl: Slot, rs: seq<ReadResult>)
    requires Awaiting(p, sl) && Delivers(p, sl.sock.value, rs)
    ensures ReadTo(p, sl, ReadLoop(sl, rs).0) && !ReadLoop(sl, rs).1.Answered?
  {
    ReadLoopReads(sl, rs);
    var sl1 := ReadLoop(sl, rs).0;
    if GoodPeer(p) {
      ReadsFurther(p, sl.sock.value, sl1.sock.value, sl.resp, sl1.resp);
    }
  }

  /** The parser answers only at the end of the reply, so the socket is owed nothing more. */
  lemma ReceivingAnswers(p: Peer, sl: Slot, sl1: Slot, reply: Reply)
    requires ReceivingOk(p, sl) && ReadTo(p, sl, sl1) && p.parse(sl1.resp) == Some(reply)
    ensures SlotOk(p, sl1.(state := Idle, owner := None))
    ensures GoodPeer(p) && reply.Ok? ==> reply.infer == ComputeStub(sl.request.body, sl.request.passes)
  {
    if GoodPeer(p) {
      var k, n := sl.sock.value, |sl.sock.value.whole| - 1;
      var b := p.respond(k.id, n, k.whole[n]);
      assert GoodReply(p, k.whole[n], b);
      AnswerIsWhole(p.parse, b, sl1.resp);
      assert Replies(p, k.id, k.whole) == Replies(p, k.id, k.whole[..n]) + b;
    }
  }

  /** What a run leaves behind, whatever state it started from. */
  ghost predicate RunKept(p: Peer, sl: Slot, sl1: Slot, r: RunResult)
  {
    && sl1 == sl.(resp := sl1.resp, sock := sl1.sock, state := sl1.state)
    && (r.Broken? ==> sl1.sock.Some? && sl.owner.Some?)
    && (r.Waits? ==> SlotOk(p, sl1))
    && (r.Answered? ==> sl.owner.Some? && sl1.sock.Some? && SlotOk(p, sl1.(owner := None)))
    && (r.Answered? && GoodPeer(p) && r.reply.Ok? ==> r.reply.infer == ComputeStub(sl.request.body, sl.request.passes))
  }

  /** What the slot makes of the octets read so far, `parsed` being what the parser says of them. */
  lemma ReceivedKept(p: Peer, sl: Slot, sl1: Slot, parsed: Option<Reply>)
    requires ReceivingOk(p, sl) && ReadTo(p, sl, sl1) && parsed == p.parse(sl1.resp)
    ensures match parsed
            case None => RunKept(p, sl, sl1, Waits)
            case Some(reply) => RunKept(p, sl, sl1.(state := Idle), Answered(reply))
  {
    match parsed
    case None =>
    case Some(reply) => ReceivingAnswers(p, sl, sl1, reply);
  }

  /** `State::Receiving`: keeps the invariant, and what it answers is the answer to its own request. */
  lemma ReceivingKeeps(p: Peer, sl: Slot, rs: seq<ReadResult>)
    requires ReceivingOk(p, sl) && Delivers(p, sl.sock.value, rs)
    ensures RunKept(p, sl, RunReceiving(p.parse, sl, rs).0, RunReceiving(p.parse, sl, rs).1)
  {
    ReadsTo(p, sl, rs);
    var (sl1, r) := ReadLoop(sl, rs);
    if !r.Broken? {
      ReceivedKept(p, sl, sl1, p.parse(sl1.resp));
    }
  }

  ghost predicate SendingOk(p: Peer, sl: Slot, off: nat)
  {
    && sl.owner.Some? && sl.sock.Some? && off <= |sl.req|
    && sl.req == Encode(p.target, sl.request)
    && sl.sock.value.written == Wire(p.target, sl.sock.value.whole) + sl.req[..off]
    && (GoodPeer(p) ==> sl.resp == [] && sl.sock.value.received == |Replies(p, sl.sock.value.id, sl.sock.value.whole)|)
  }

  /** After the write loop the slot is again in a legal state: still sending, or receiving. */
  lemma SendingKeeps(p: Peer, sl: Slot, off: nat, ws: seq<WriteResult>)
    requires SendingOk(p, sl, off)
    ensures
      var (sl1, r) := SendLoop(sl, off, ws);
      && sl1 == sl.(sock := sl1.sock, state := sl1.state) && sl1.sock.Some?
      && !r.Answered?
      && (r.Waits? ==> SlotOk(p, sl1) && (sl1.state.Receiving? || sl1.state.Sending?))
  {
    var k := sl.sock.value;
    SendLoopWrites(sl, Wire(p.target, k.whole), off, ws);
    var (sl1, r) := SendLoop(sl, off, ws);
    if r.Waits? && sl1.state.Receiving? {
      WireSnoc(p.target, k.whole, sl.request);
      var whole := sl1.sock.value.whole;
      assert whole[..|whole| - 1] == k.whole;
    }
  }

  /** What holds of a run from `sl1` holds from the slot `sl` that differs in socket and state only. */
  lemma RunKeptFrom(p: Peer, sl: Slot, sl1: Slot, sl2: Slot, r: RunResult)
    requires RunKept(p, sl1, sl2, r) && sl1 == sl.(sock := sl1.sock, state := sl1.state)
    ensures RunKept(p, sl, sl2, r)
  {
  }

  lemma RunSendingKeeps(p: Peer, sl: Slot, off: nat, io: Io)
    requires SendingOk(p, sl, off)
    requires SendLoop(sl, off, io.sends).0.sock.Some?
    requires Delivers(p, SendLoop(sl, off, io.sends).0.sock.value, io.recvs)
    ensures RunKept(p, sl, RunSending(p.parse, sl, off, io).0, RunSending(p.parse, sl, off, io).1)
  {
    SendingKeeps(p, sl, off, io.sends);
    var (sl1, r) := SendLoop(sl, off, io.sends);
    if r.Waits? && sl1.state.Receiving? {
      ReceivingKeeps(p, sl1, io.recvs);
      var (sl2, r2) := RunReceiving(p.parse, sl1, io.recvs);
      RunKeptFrom(p, sl, sl1, sl2, r2);
    }
  }

  /** A readiness event on a free slot only ever notices that the server closed the socket. */
  lemma IdleKeeps(p: Peer, sl: Slot, writable: bool, rs: seq<ReadResult>)
    requires SlotOk(p, sl) && sl.owner.None? && sl.sock.Some? && Delivers(p, sl.sock.value, rs)
    ensures SlotOk(p, RunIdle(sl, writable, rs))
    ensures RunIdle(sl, writable, rs) ==
              sl.(sock := RunIdle(sl, writable, rs).sock, state := RunIdle(sl, writable, rs).state)
  {
    if GoodPeer(p) && rs != [] && rs[0].Read? {
      ServedWhole(p, sl.sock.value);
      assert DataOf(rs) == [];
      assert rs[0].chunk == [];
    }
  }

  lemma ConnectingKeeps(p: Peer, sl: Slot, io: Io)
    requires SlotOk(p, sl) && sl.sock.Some? && sl.owner.Some? && sl.state.Connecting? && Legal(p, sl, io)
    requires io.connect.Established?
    ensures
      var sl0 := sl.(state := Sending(0));
      RunKept(p, sl, RunSending(p.parse, sl0, 0, io).0, RunSending(p.parse, sl0, 0, io).1)
  {
    var sl0 := sl.(state := Sending(0));
    assert Wire(p.target, []) + sl.req[..0] == [];
    SendingKeeps(p, sl0, 0, io.sends);
    RunSendingKeeps(p, sl0, 0, io);
    var (sl1, r) := RunSending(p.parse, sl0, 0, io);
    RunKeptFrom(p, sl, sl0, sl1, r);
  }

  lemma RunKeeps(p: Peer, sl: Slot, writable: bool, io: Io)
    requires SlotOk(p, sl) && sl.sock.Some? && Legal(p, sl, io)
    ensures RunKept(p, sl, Run(p.parse, sl, writable, io).0, Run(p.parse, sl, writable, io).1)
  {
    if sl.owner.None? {
      IdleKeeps(p, sl, writable, io.recvs);
    } else {
      match sl.state
      case Connecting =>
        if io.connect.Established? { ConnectingKeeps(p, sl, io); }
      case Sending(off) =>
        SendingKeeps(p, sl, off, io.sends);
        RunSendingKeeps(p, sl, off, io);
      case Receiving =>
        ReceivingKeeps(p, sl, io.recvs);
    }
  }

  /**
   One readiness event on a slot that holds an open socket. A free slot never
   completes and never redials; a busy one either waits in a legal state, or
   completes and is then fit to be free (its socket, if kept, having carried whole
   requests only), or drops its socket and every octet received on it to resend
   from octet 0, which it does only once per request. With a good peer a
   successful reply is the stub's answer to this slot's own request.
   */
  lemma DriveKeeps(p: Peer, sl: Slot, writable: bool, io: Io)
    requires SlotOk(p, sl) && sl.sock.Some? && Legal(p, sl, io)
    ensures
      var (sl1, step) := Drive(p.parse, sl, writable, io);
      && sl1.owner == sl.owner && sl1.tag == sl.tag && sl1.request == sl.request
      && (sl.owner.None? ==> step.Pending?)
      && (step.Pending? ==> SlotOk(p, sl1) && sl1.retried == sl.retried)
      && (step.Finished? ==> SlotOk(p, sl1.(owner := None)))
      && (step.Finished? && GoodPeer(p) && step.reply.Ok? ==>
            step.reply.infer == ComputeStub(sl.request.body, sl.request.passes))
      && (step.Redial? ==>
            && !sl.retried && sl1.retried && sl1.sock.None? && sl1.resp == []
            && SlotOk(p, sl1.(owner := None))
            && forall id :: SlotOk(p, Dialled(sl1, id)))
  {
    RunKeeps(p, sl, writable, io);
    var (sl1, r) := Run(p.parse, sl, writable, io);
    if r.Broken? {
      var (sl2, step) := RetryOrFail(sl1);
      forall id
        ensures step.Redial? ==> SlotOk(p, Dialled(sl2, id))
      {
        assert Wire(p.target, []) == [] && Replies(p, id, []) == [];
      }
    }
  }

  // ------------------------------------------- chunking, and resending at most once

  /** One readiness event of a request in flight: its I/O results and the id a redial would get. */
  datatype Poke = Poke(writable: bool, io: Io, sockId: nat)

  /** The octets one pass of the read loop takes in: up to the first result that ends it. */
  function Got(rs: seq<ReadResult>): Bytes
  {
    if rs == [] || rs[0].ReadBlocked? || rs[0].ReadFailed? then []
    else if rs[0].ReadInterrupted? then Got(rs[1..])
    else if rs[0].chunk == [] then []
    else rs[0].chunk + Got(rs[1..])
  }

  /** That result is an end of file or an error, rather than WouldBlock. */
  predicate Breaks(rs: seq<ReadResult>)
  {
    if rs == [] || rs[0].ReadBlocked? then false
    else rs[0].ReadFailed? || (rs[0].Read? && rs[0].chunk == []) || Breaks(rs[1..])
  }

  lemma {:induction false} ReadLoopGot(sl: Slot, rs: seq<ReadResult>)
    requires sl.sock.Some?
    ensures
      var (sl1, r) := ReadLoop(sl, rs);
      && sl1.sock.Some? && sl1 == sl.(resp := sl.resp + Got(rs), sock := sl1.sock)
      && r == if Breaks(rs) then Broken else Waits
    decreases |rs|
  {
    if rs == [] || rs[0].ReadBlocked? || rs[0].ReadFailed? {
      assert sl.resp + [] == sl.resp;
    } else if rs[0].ReadInterrupted? {
      ReadLoopGot(sl, rs[1..]);
    } else if rs[0].chunk == [] {
      assert sl.resp + [] == sl.resp;
    } else {
      var k, chunk := sl.sock.value, rs[0].chunk;
      ReadLoopGot(sl.(sock := Some(k.(received := k.received + |chunk|)), resp := sl.resp + chunk), rs[1..]);
      assert sl.resp + chunk + Got(rs[1..]) == sl.resp + (chunk + Got(rs[1..]));
    }
  }

  /** What a list of drives of a receiving slot comes to: the first step that is not Pending, if any. */
  function Outcome(parse: Parser, sl: Slot, ds: seq<Poke>): Step
    decreases |ds|
  {
    if ds == [] || sl.sock.None? then Pending
    else
      var (sl1, step) := Drive(parse, sl, ds[0].writable, ds[0].io);
      if step.Pending? then Outcome(parse, sl1, ds[1..]) else step
  }

  function GotAll(ds: seq<Poke>): Bytes
  {
    if ds == [] then [] else Got(ds[0].io.recvs) + GotAll(ds[1..])
  }

  /** The drive that reads the last octet of the reply (the last one, if none does). */
  function Holder(parse: Parser, resp: Bytes, ds: seq<Poke>): (h: nat)
    requires ds != []
    ensures h < |ds|
    decreases |ds|
  {
    var resp1 := resp + Got(ds[0].io.recvs);
    if |ds| == 1 || parse(resp1).Some? then 0 else 1 + Holder(parse, resp1, ds[1..])
  }

  predicate NoneBreaks(ds: seq<Poke>, upTo: int)
  {
    forall j :: 0 <= j < |ds| && j <= upTo ==> !Breaks(ds[j].io.recvs)
  }

  /** One drive of a receiving slot, by what its reads hold. */
  lemma ReceivingDrive(parse: Parser, sl: Slot, d: Poke)
    requires sl.sock.Some? && sl.state.Receiving?
    ensures
      var (sl1, step) := Drive(parse, sl, d.writable, d.io);
      var parsed := parse(sl.resp + Got(d.io.recvs));
      if Breaks(d.io.recvs) then step == if sl.retried then Finished(Err(ConnectionReset)) else Redial
      else if parsed.Some? then step == Finished(parsed.value)
      else
        && step == Pending && sl1.sock.Some?
        && sl1 == sl.(resp := sl.resp + Got(d.io.recvs), sock := sl1.sock)
  {
    ReadLoopGot(sl, d.io.recvs);
  }

  lemma {:induction false} DrivesFinish(parse: Parser, sl: Slot, ds: seq<Poke>)
    requires Settled(parse) && sl.sock.Some? && sl.state.Receiving? && ds != []
    ensures
      var parsed := parse(sl.resp + GotAll(ds));
      if parsed.Some?
      then Outcome(parse, sl, ds) == Finished(parsed.value) <==> NoneBreaks(ds, Holder(parse, sl.resp, ds))
      else Outcome(parse, sl, ds).Finished? ==> Outcome(parse, sl, ds) == Finished(Err(ConnectionReset))
    decreases |ds|
  {
    var got, rest := Got(ds[0].io.recvs), ds[1..];
    var resp1 := sl.resp + got;
    assert sl.resp + GotAll(ds) == resp1 + GotAll(rest);
    ReceivingDrive(parse, sl, ds[0]);
    if Breaks(ds[0].io.recvs) {
      assert !NoneBreaks(ds, Holder(parse, sl.resp, ds));
    } else if parse(resp1).Some? {
      assert parse(resp1 + GotAll(rest)) == parse(resp1);
    } else if rest == [] {
      assert resp1 + [] == resp1;
    } else {
      DrivesFinish(parse, Drive(parse, sl, ds[0].writable, ds[0].io).0, rest);
    }
  }

  /**
   The answer does not depend on how the reply is cut into reads and drives. If all
   that a list of drives reads holds a reply, then the slot finishes with that
   reply exactly when no drive, up to the one that reads its last octet, also meets
   the end of the stream or an error. If it holds none, the slot does not finish,
   except by giving up on the socket.
   */
  lemma ChunkingIrrelevant(c: Codec, sl: Slot, ds: seq<Poke>)
    requires sl.sock.Some? && sl.state.Receiving? && ds != []
    ensures
      var parsed, outcome := ParseResponse(c, sl.resp + GotAll(ds)), Outcome(ParserOf(c), sl, ds);
      if parsed.Some?
      then outcome == Finished(parsed.value) <==> NoneBreaks(ds, Holder(ParserOf(c), sl.resp, ds))
      else outcome.Finished? ==> outcome == Finished(Err(ConnectionReset))
  {
    ParserSettled(c);
    DrivesFinish(ParserOf(c), sl, ds);
  }

  /** The first `n` drives hold a reply. */
  predicate CompleteBy(parse: Parser, resp: Bytes, ds: seq<Poke>, n: nat)
    requires n <= |ds|
  {
    parse(resp + GotAll(ds[..n])).Some?
  }

  lemma GotFirst(resp: Bytes, ds: seq<Poke>, n: nat)
    requires 1 <= n <= |ds|
    ensures resp + GotAll(ds[..n]) == resp + Got(ds[0].io.recvs) + GotAll(ds[1..][..n - 1])
  {
    assert ds[..n][1..] == ds[1..][..n - 1];
  }

  /** `Holder` is where the reply becomes complete. */
  lemma {:induction false} HolderCompletes(parse: Parser, resp: Bytes, ds: seq<Poke>)
    requires ds != [] && CompleteBy(parse, resp, ds, |ds|)
    ensures CompleteBy(parse, resp, ds, Holder(parse, resp, ds) + 1)
    ensures forall n :: 1 <= n <= Holder(parse, resp, ds) ==> !CompleteBy(parse, resp, ds, n)
    decreases |ds|
  {
    var resp1, rest := resp + Got(ds[0].io.recvs), ds[1..];
    GotFirst(resp, ds, 1);
    GotFirst(resp, ds, |ds|);
    assert resp1 + GotAll(rest[..0]) == resp1 && rest[..|rest|] == rest;
    if |ds| > 1 && parse(resp1).None? {
      HolderCompletes(parse, resp1, rest);
      var h := Holder(parse, resp1, rest);
      GotFirst(resp, ds, h + 2);
      forall n | 1 <= n <= h + 1
        ensures !CompleteBy(parse, resp, ds, n)
      {
        GotFirst(resp, ds, n);
        assert n > 1 ==> !CompleteBy(parse, resp1, rest, n - 1);
      }
    }
  }

  lemma OneChunk(b: Bytes, more: seq<ReadResult>)
    requires b != []
    ensures Got([Read(b)] + more) == b + Got(more) && (Breaks([Read(b)] + more) <==> Breaks(more))
  {
    assert ([Read(b)] + more)[1..] == more;
  }

  /**
   So a server that answers and closes can lose its answer: when the end of the
   stream is read in the drive that completes the reply, the reply is thrown away,
   and the request is sent again or reported as a reset.
   */
  lemma ReplyThenCloseIsLost(parse: Parser, sl: Slot, d: Poke, e: Poke, b: Bytes)
    requires sl.sock.Some? && sl.state.Receiving? && b != [] && parse(sl.resp + b).Some?
    requires d.io.recvs == [Read(b)] && e.io.recvs == [Read(b), Read([])]
    ensures Drive(parse, sl, d.writable, d.io).1 == Finished(parse(sl.resp + b).value)
    ensures Drive(parse, sl, e.writable, e.io).1 == if sl.retried then Finished(Err(ConnectionReset)) else Redial
  {
    OneChunk(b, []);
    OneChunk(b, [Read([])]);
    assert [Read(b)] + [] == [Read(b)] && b + [] == b;
    assert [Read(b)] + [Read([])] == [Read(b), Read([])];
    ReceivingDrive(parse, sl, d);
    ReceivingDrive(parse, sl, e);
  }

  /** How often the request in `sl` is sent again while `pokes` arrive (until it finishes). */
  function Resends(parse: Parser, sl: Slot, pokes: seq<Poke>): nat
    decreases |pokes|
  {
    if pokes == [] || sl.sock.None? then 0 else
    var (sl1, step) := Drive(parse, sl, pokes[0].writable, pokes[0].io);
    match step
    case Finished(_) => 0
    case Pending => Resends(parse, sl1, pokes[1..])
    case Redial => 1 + Resends(parse, Dialled(sl1, pokes[0].sockId), pokes[1..])
  }

  lemma {:induction false} SendLoopFrame(sl: Slot, off: nat, ws: seq<WriteResult>)
    requires sl.sock.Some?
    ensures SendLoop(sl, off, ws).0.sock.Some? && SendLoop(sl, off, ws).0.retried == sl.retried
    decreases |ws|
  {
    if off < |sl.req| && ws != [] {
      match ws[0]
      case WriteInterrupted => SendLoopFrame(sl, off, ws[1..]);
      case Wrote(n) =>
        var m := if n <= |sl.req| - off then n else |sl.req| - off;
        if m > 0 {
          var k := sl.sock.value;
          SendLoopFrame(sl.(sock := Some(k.(written := k.written + sl.req[off..off + m]))), off + m, ws[1..]);
        }
      case WriteFailed =>
      case WriteBlocked =>
    }
  }

  lemma RunFrame(parse: Parser, sl: Slot, writable: bool, io: Io)
    requires sl.sock.Some?
    ensures Run(parse, sl, writable, io).0.retried == sl.retried
  {
    SendLoopFrame(sl.(state := Sending(0)), 0, io.sends);
    if sl.state.Sending? { SendLoopFrame(sl, sl.state.off, io.sends); }
    ReadLoopReads(sl, io.recvs);
    var sl0 := SendLoop(sl.(state := Sending(0)), 0, io.sends).0;
    ReadLoopReads(sl0, io.recvs);
    if sl.state.Sending? {
      var sl1 := SendLoop(sl, sl.state.off, io.sends).0;
      ReadLoopReads(sl1, io.recvs);
    }
  }

  /** Whatever the sockets do, one request is sent at most twice. */
  lemma {:induction false} ResentAtMostOnce(parse: Parser, sl: Slot, pokes: seq<Poke>)
    ensures Resends(parse, sl, pokes) <= if sl.retried then 0 else 1
    decreases |pokes|
  {
    if pokes != [] && sl.sock.Some? {
      RunFrame(parse, sl, pokes[0].writable, pokes[0].io);
      var (sl1, step) := Drive(parse, sl, pokes[0].writable, pokes[0].io);
      match step
      case Finished(_) =>
      case Pending => ResentAtMostOnce(parse, sl1, pokes[1..]);
      case Redial => ResentAtMostOnce(parse, Dialled(sl1, pokes[0].sockId), pokes[1..]);
    }
  }

  // ------------------------------------------------------------------ the pool

  /** Thread B to thread A. */
  datatype Done = Done(owner: nat, tag: nat, reply: Reply)

  datatype Pool = Pool(slots: seq<Slot>, free: seq<nat>, nextSock: nat)

  function NewPool(size: nat): Pool
  {
    Pool(seq(size, _ => EMPTY_SLOT), seq(size, i => size - 1 - i), 0)
  }

  function Recycle(p: Pool, idx: nat): Pool
    requires idx < |p.slots|
  {
    p.(slots := p.slots[idx := p.slots[idx].(owner := None)], free := p.free + [idx])
  }

  function Submit(t: Target, p: Pool, owner: nat, tag: nat, request: Request, dialOk: bool): (Pool, Option<Done>)
  {
    if p.free == [] || p.free[|p.free| - 1] >= |p.slots|
    then (p, Some(Done(owner, tag, Err(ConnectionReset))))
    else
      var idx := p.free[|p.free| - 1];
      var rest := p.free[..|p.free| - 1];
      var sl := Build(t, p.slots[idx].(owner := Some(owner), tag := tag), request);
      if sl.sock.Some? then
        (p.(slots := p.slots[idx := sl.(state := Sending(0))], free := rest), None)
      else if dialOk then
        (p.(slots := p.slots[idx := Dialled(sl, p.nextSock)], free := rest, nextSock := p.nextSock + 1), None)
      else
        (p.(slots := p.slots[idx := sl.(owner := None)], free := rest + [idx]),
         Some(Done(owner, tag, Err(ConnectionReset))))
  }

  function DoneFor(sl: Slot, reply: Reply): Option<Done>
  {
    match sl.owner
    case None => None
    case Some(o) => Some(Done(o, sl.tag, reply))
  }

  function OnEvent(parse: Parser, p: Pool, idx: nat, writable: bool, io: Io, dialOk: bool): (Pool, Option<Done>)
    requires idx < |p.slots| && p.slots[idx].sock.Some?
  {
    var (sl, step) := Drive(parse, p.slots[idx], writable, io);
    AfterDrive(p, idx, sl, step, dialOk)
  }

  /** Slot `idx` was driven to `sl`: keep it, redial it, or give it up and report. */
  function AfterDrive(p: Pool, idx: nat, sl: Slot, step: Step, dialOk: bool): (Pool, Option<Done>)
    requires idx < |p.slots|
  {
    var p1 := p.(slots := p.slots[idx := sl]);
    match step
    case Pending => (p1, None)
    case Redial =>
      if dialOk
      then (p1.(slots := p1.slots[idx := Dialled(sl, p.nextSock)], nextSock := p.nextSock + 1), None)
      else (Recycle(p1, idx), DoneFor(sl, Err(ConnectionReset)))
    case Finished(reply) => (Recycle(p1, idx), DoneFor(sl, reply))
  }

  /** The first slot from `i` on that `owner` holds. */
  function FirstOwned(slots: seq<Slot>, owner: nat, i: nat): (r: Option<nat>)
    ensures r.Some? ==> i <= r.value < |slots| && slots[r.value].owner == Some(owner)
    ensures r.None? ==> forall j :: i <= j < |slots| ==> slots[j].owner != Some(owner)
    decreases |slots| - i
  {
    if i >= |slots| then None
    else if slots[i].owner == Some(owner) then Some(i)
    else FirstOwned(slots, owner, i + 1)
  }

  function AbortOwner(p: Pool, owner: nat): Pool
  {
    match FirstOwned(p.slots, owner, 0)
    case None => p
    case Some(idx) =>
      Recycle(p.(slots := p.slots[idx := p.slots[idx].(sock := None, state := Disconnected)]), idx)
  }

  /** The free list names exactly the slots without an owner, each once. */
  ghost predicate Partition(p: Pool)
  {
    && (forall k :: 0 <= k < |p.free| ==> p.free[k] < |p.slots|)
    && (forall k, l :: 0 <= k < l < |p.free| ==> p.free[k] != p.free[l])
    && (forall i :: 0 <= i < |p.slots| ==> (i in p.free <==> p.slots[i].owner.None?))
  }

  ghost predicate PoolInv(peer: Peer, p: Pool)
  {
    Partition(p) && forall i :: 0 <= i < |p.slots| ==> SlotOk(peer, p.slots[i])
  }

  /** Every slot but `idx` is as before. */
  ghost predicate OnlySlot(p: Pool, q: Pool, idx: nat)
  {
    && |q.slots| == |p.slots|
    && (forall i :: 0 <= i < |p.slots| && i != idx ==> q.slots[i] == p.slots[i])
  }

  lemma NewPoolInv(peer: Peer, size: nat)
    ensures PoolInv(peer, NewPool(size))
  {
    var p := NewPool(size);
    forall i | 0 <= i < size
      ensures i in p.free
    {
      assert p.free[size - 1 - i] == i;
    }
  }

  lemma FreeLast(p: Pool)
    requires Partition(p) && p.free != []
    ensures
      var idx := p.free[|p.free| - 1];
      var rest := p.free[..|p.free| - 1];
      && idx < |p.slots| && p.slots[idx].owner.None? && idx !in rest
      && (forall i :: i in p.free <==> i == idx || i in rest)
  {
    var idx := p.free[|p.free| - 1];
    var rest := p.free[..|p.free| - 1];
    assert p.free == rest + [idx];
    assert idx in p.free;
  }

  /** A submit either occupies one free slot or reports a reset and changes no owner. */
  lemma SubmitKeeps(peer: Peer, p: Pool, owner: nat, tag: nat, request: Request, dialOk: bool)
    requires PoolInv(peer, p)
    ensures
      var (q, d) := Submit(peer.target, p, owner, tag, request, dialOk);
      && PoolInv(peer, q) && |q.slots| == |p.slots|
      && (d.Some? ==>
            && d.value == Done(owner, tag, Err(ConnectionReset))
            && (forall i :: 0 <= i < |p.slots| ==>
                  q.slots[i].owner == p.slots[i].owner && (q.slots[i].owner.Some? ==> q.slots[i] == p.slots[i])))
      && (d.None? ==>
            exists idx :: 0 <= idx < |p.slots| && p.slots[idx].owner.None? && OnlySlot(p, q, idx)
              && q.slots[idx].owner == Some(owner) && q.slots[idx].tag == tag && q.slots[idx].request == request)
  {
    if p.free != [] {
      FreeLast(p);
      var idx := p.free[|p.free| - 1];
      var rest := p.free[..|p.free| - 1];
      var sl := p.slots[idx];
      assert SlotOk(peer, sl);
      var (q, d) := Submit(peer.target, p, owner, tag, request, dialOk);
      assert OnlySlot(p, q, idx);
      SubmittedSlotOk(peer, sl, owner, tag, request, p.nextSock);
      if d.None? {
        assert q.free == rest;
      } else {
        assert forall i :: i in rest + [idx] <==> i in p.free;
      }
    }
  }

  lemma SubmittedSlotOk(peer: Peer, sl: Slot, owner: nat, tag: nat, request: Request, sockId: nat)
    requires SlotOk(peer, sl) && sl.owner.None?
    ensures
      var b := Build(peer.target, sl.(owner := Some(owner), tag := tag), request);
      && (b.sock.Some? ==> SlotOk(peer, b.(state := Sending(0))))
      && (b.sock.None? ==> SlotOk(peer, Dialled(b, sockId)) && SlotOk(peer, b.(owner := None)))
  {
    var b := Build(peer.target, sl.(owner := Some(owner), tag := tag), request);
    assert b.req[..0] == [];
    if b.sock.Some? {
      var k := b.sock.value;
      assert k.written == k.written + b.req[..0];
    }
  }

  lemma RecycleKeeps(peer: Peer, p: Pool, idx: nat, sl: Slot)
    requires PoolInv(peer, p) && idx < |p.slots| && p.slots[idx].owner.Some?
    requires SlotOk(peer, sl.(owner := None))
    ensures PoolInv(peer, Recycle(p.(slots := p.slots[idx := sl]), idx))
    ensures OnlySlot(p, Recycle(p.(slots := p.slots[idx := sl]), idx), idx)
    ensures Recycle(p.(slots := p.slots[idx := sl]), idx).slots[idx].owner.None?
  {
    var q := Recycle(p.(slots := p.slots[idx := sl]), idx);
    assert idx !in p.free;
    assert forall i :: i in q.free <==> i in p.free || i == idx;
  }

  lemma AfterDriveKeeps(peer: Peer, p: Pool, idx: nat, sl: Slot, step: Step, dialOk: bool)
    requires PoolInv(peer, p) && idx < |p.slots| && sl.owner == p.slots[idx].owner
    requires step.Pending? ==> SlotOk(peer, sl)
    requires !step.Pending? ==> sl.owner.Some? && SlotOk(peer, sl.(owner := None))
    requires step.Redial? ==> SlotOk(peer, Dialled(sl, p.nextSock))
    ensures PoolInv(peer, AfterDrive(p, idx, sl, step, dialOk).0)
  {
    if step.Pending? {
      SlotReplaced(peer, p, idx, sl, p.nextSock);
    } else if step.Redial? && dialOk {
      SlotReplaced(peer, p, idx, Dialled(sl, p.nextSock), p.nextSock + 1);
      assert p.slots[idx := sl][idx := Dialled(sl, p.nextSock)] == p.slots[idx := Dialled(sl, p.nextSock)];
    } else {
      RecycleKeeps(peer, p, idx, sl);
    }
  }

  lemma EventPool(peer: Peer, p: Pool, idx: nat, writable: bool, io: Io, dialOk: bool)
    requires PoolInv(peer, p) && idx < |p.slots| && p.slots[idx].sock.Some? && Legal(peer, p.slots[idx], io)
    ensures PoolInv(peer, OnEvent(peer.parse, p, idx, writable, io, dialOk).0)
  {
    DriveKeeps(peer, p.slots[idx], writable, io);
    var (sl, step) := Drive(peer.parse, p.slots[idx], writable, io);
    AfterDriveKeeps(peer, p, idx, sl, step, dialOk);
  }

  lemma EventReport(peer: Peer, p: Pool, idx: nat, writable: bool, io: Io, dialOk: bool)
    requires idx < |p.slots| && p.slots[idx].sock.Some?
    requires SlotOk(peer, p.slots[idx]) && Legal(peer, p.slots[idx], io)
    ensures
      var sl := p.slots[idx];
      var (q, d) := OnEvent(peer.parse, p, idx, writable, io, dialOk);
      && OnlySlot(p, q, idx)
      && (d.None? ==>
            && q.slots[idx].owner == sl.owner && q.slots[idx].tag == sl.tag && q.slots[idx].request == sl.request)
      && (d.Some? ==>
            && sl.owner == Some(d.value.owner) && d.value.tag == sl.tag && q.slots[idx].owner.None?
            && (GoodPeer(peer) && d.value.reply.Ok? ==>
                  d.value.reply.infer == ComputeStub(sl.request.body, sl.request.passes)))
  {
    DriveKeeps(peer, p.slots[idx], writable, io);
  }

  /**
   A readiness event. Either no owner changes and nothing is reported, or the
   owner of slot `idx` is told, under its own tag, and gives the slot up.
   */
  lemma OnEventKeeps(peer: Peer, p: Pool, idx: nat, writable: bool, io: Io, dialOk: bool)
    requires PoolInv(peer, p) && idx < |p.slots| && p.slots[idx].sock.Some? && Legal(peer, p.slots[idx], io)
    ensures
      var sl := p.slots[idx];
      var (q, d) := OnEvent(peer.parse, p, idx, writable, io, dialOk);
      && PoolInv(peer, q) && OnlySlot(p, q, idx)
      && (d.None? ==>
            && q.slots[idx].owner == sl.owner && q.slots[idx].tag == sl.tag && q.slots[idx].request == sl.request)
      && (d.Some? ==>
            && sl.owner == Some(d.value.owner) && d.value.tag == sl.tag && q.slots[idx].owner.None?
            && (GoodPeer(peer) && d.value.reply.Ok? ==>
                  d.value.reply.infer == ComputeStub(sl.request.body, sl.request.passes)))
  {
    EventPool(peer, p, idx, writable, io, dialOk);
    EventReport(peer, p, idx, writable, io, dialOk);
  }

  /** A slot that keeps its owner and is in order may take another's place. */
  lemma SlotReplaced(peer: Peer, p: Pool, idx: nat, sl: Slot, nextSock: nat)
    requires PoolInv(peer, p) && idx < |p.slots| && SlotOk(peer, sl) && sl.owner == p.slots[idx].owner
    ensures PoolInv(peer, p.(slots := p.slots[idx := sl], nextSock := nextSock))
  {
  }

  /** An abort frees the first slot of `owner`, if it holds one, and drops that slot's socket. */
  lemma AbortKeeps(peer: Peer, p: Pool, owner: nat)
    requires PoolInv(peer, p)
    ensures
      var q := AbortOwner(p, owner);
      && PoolInv(peer, q) && |q.slots| == |p.slots|
      && (FirstOwned(p.slots, owner, 0).None? ==> q == p)
      && (FirstOwned(p.slots, owner, 0).Some? ==>
            var idx := FirstOwned(p.slots, owner, 0).value;
            OnlySlot(p, q, idx) && q.slots[idx].owner.None? && q.slots[idx].sock.None?)
  {
    var r := FirstOwned(p.slots, owner, 0);
    if r.Some? {
      RecycleKeeps(peer, p, r.value, p.slots[r.value].(sock := None, state := Disconnected));
    }
  }
}
