/**
 The receive side of the Java gateway's session
 (services/java-helidon-nima/src/main/java/stt/session/Session.java:122-218):
 reassembly of fragmented messages (section 5.4 of RFC 6455) and the buffer of
 frames, which the flush thread drains between any two callbacks.
 */
module JavaReceive {
  import opened Octets

  const MAX_START_CHARS := 1024
  const MAX_BACKLOG_FRAMES := 300
  const CLOSE_PROTOCOL_ERROR := 1002
  const CLOSE_UNSUPPORTED_DATA := 1003
  const CLOSE_TRY_AGAIN_LATER := 1013

  datatype Frame = Frame(seqNo: nat, payload: Bytes)

  /**
   `code` is the close code the receive thread chose, if it was the one to set
   `closed`; `drained` is what the flush thread took.
   */
  datatype Rx = Rx(
    started: bool,
    closed: bool,
    code: Option<int>,
    pendingText: Option<string>,
    pendingFrame: Option<Bytes>,
    seqNo: nat,
    buffer: seq<Frame>,
    drained: seq<Frame>)

  function CloseWith(s: Rx, code: int): Rx
  {
    if s.closed then s else s.(closed := true, code := Some(code))
  }

  function Append(s: Rx, payload: Bytes): Rx
  {
    if |s.buffer| < MAX_BACKLOG_FRAMES then
      s.(seqNo := s.seqNo + 1, buffer := s.buffer + [Frame(s.seqNo + 1, payload)])
    else CloseWith(s, CLOSE_TRY_AGAIN_LATER)
  }

  function OnBinary(s: Rx, bytes: Bytes, last: bool): Rx
  {
    if s.closed then s
    else if !s.started then CloseWith(s, CLOSE_PROTOCOL_ERROR)
    else if s.pendingFrame.None? && last then
      if |bytes| != FRAME_BYTES then CloseWith(s, CLOSE_UNSUPPORTED_DATA) else Append(s, bytes)
    else
      var pending := if s.pendingFrame.None? then [] else s.pendingFrame.value;
      if |bytes| > FRAME_BYTES - |pending| then CloseWith(s.(pendingFrame := None), CLOSE_UNSUPPORTED_DATA)
      else if !last then s.(pendingFrame := Some(pending + bytes))
      else
        var done := s.(pendingFrame := None);
        if |pending + bytes| != FRAME_BYTES then CloseWith(done, CLOSE_UNSUPPORTED_DATA)
        else Append(done, pending + bytes)
  }

  function OnText(s: Rx, isStart: string -> bool, text: string, last: bool): Rx
  {
    if s.closed then s
    else if s.started then CloseWith(s, CLOSE_PROTOCOL_ERROR)
    else if s.pendingText.None? && last then Begin(s, isStart, text)
    else
      var pending := (if s.pendingText.None? then "" else s.pendingText.value) + text;
      if |pending| > MAX_START_CHARS then CloseWith(s.(pendingText := None), CLOSE_PROTOCOL_ERROR)
      else if !last then s.(pendingText := Some(pending))
      else Begin(s.(pendingText := None), isStart, pending)
  }

  function Begin(s: Rx, isStart: string -> bool, message: string): Rx
  {
    if isStart(message) then s.(started := true) else CloseWith(s, CLOSE_PROTOCOL_ERROR)
  }

  /** The flush thread takes the whole buffer. */
  function Drain(s: Rx): Rx
  {
    s.(buffer := [], drained := s.drained + s.buffer)
  }

  /** `shutdown` by the writer thread, after a send of its failed. */
  function ShutDown(s: Rx): Rx
  {
    s.(closed := true)
  }

  // --------------------------------------------------------------- binary fragments

  /**
   A fragment, and what other threads do just before it: whether the flush thread
   drains the buffer, and whether the writer thread shuts the session down.
   */
  datatype Piece = Piece(bytes: Bytes, drains: bool, shuts: bool)

  function DrainIf(s: Rx, d: bool): Rx
  {
    if d then Drain(s) else s
  }

  function ShutIf(s: Rx, d: bool): Rx
  {
    if d then ShutDown(s) else s
  }

  function Arrive(s: Rx, p: Piece, last: bool): Rx
  {
    OnBinary(ShutIf(DrainIf(s, p.drains), p.shuts), p.bytes, last)
  }

  /** The fragments of one message, the last of them final. */
  function Fragments(s: Rx, ps: seq<Piece>): Rx
    requires ps != []
    decreases |ps|
  {
    if |ps| == 1 then Arrive(s, ps[0], true)
    else Fragments(Arrive(s, ps[0], false), ps[1..])
  }

  function Payload(ps: seq<Piece>): Bytes
  {
    if ps == [] then [] else ps[0].bytes + Payload(ps[1..])
  }

  predicate Drained(ps: seq<Piece>)
  {
    exists i :: 0 <= i < |ps| && ps[i].drains
  }

  /** The first fragment that finds the session shut down; `|ps|` if there is none. */
  function FirstShut(ps: seq<Piece>): (n: nat)
    ensures n <= |ps|
  {
    if ps == [] || ps[0].shuts then 0 else 1 + FirstShut(ps[1..])
  }

  lemma DrainedTail(ps: seq<Piece>)
    requires ps != []
    ensures Drained(ps) <==> ps[0].drains || Drained(ps[1..])
  {
    assert Drained(ps[1..]) ==> Drained(ps) by {
      if i :| 0 <= i < |ps[1..]| && ps[1..][i].drains {
        assert ps[i + 1].drains;
      }
    }
    if i :| 0 <= i < |ps| && ps[i].drains {
      assert i > 0 ==> ps[1..][i - 1].drains;
    }
  }

  lemma DrainIfTwice(s: Rx, a: bool, b: bool)
    ensures DrainIf(DrainIf(s, a), b) == DrainIf(s, a || b)
  {
  }

  /** Once closed, fragments change nothing; drains still happen. */
  lemma {:induction false} ClosedIgnores(s: Rx, ps: seq<Piece>)
    requires ps != [] && s.closed
    ensures Fragments(s, ps) == DrainIf(s, Drained(ps))
    decreases |ps|
  {
    DrainedTail(ps);
    if |ps| > 1 {
      ClosedIgnores(DrainIf(s, ps[0].drains), ps[1..]);
      DrainIfTwice(s, ps[0].drains, Drained(ps[1..]));
    }
  }

  /** The rest of a message whose first bytes are pending. */
  lemma {:induction false} RestOfMessage(s: Rx, had: Bytes, ps: seq<Piece>)
    requires ps != [] && !s.closed && s.started && s.pendingFrame == Some(had) && |had| <= FRAME_BYTES
    requires FirstShut(ps) == |ps|
    ensures Fragments(s, ps) == OnBinary(DrainIf(s, Drained(ps)).(pendingFrame := None), had + Payload(ps), true)
    decreases |ps|
  {
    var p := ps[0].bytes;
    DrainedTail(ps);
    DrainIfTwice(s, ps[0].drains, Drained(ps[1..]));
    assert had + Payload(ps) == had + p + Payload(ps[1..]);
    if |ps| == 1 {
      assert p + Payload(ps[1..]) == p;
    } else if |had| + |p| > FRAME_BYTES {
      ClosedIgnores(Arrive(s, ps[0], false), ps[1..]);
    } else {
      RestOfMessage(Arrive(s, ps[0], false), had + p, ps[1..]);
    }
  }

  /** A shutdown in the middle of a message, `had` of which is pending. */
  lemma {:induction false} ShutMidway(s: Rx, had: Bytes, ps: seq<Piece>)
    requires ps != [] && !s.closed && s.started && s.pendingFrame == Some(had) && |had| <= FRAME_BYTES
    requires FirstShut(ps) < |ps|
    ensures
      var d := DrainIf(s, Drained(ps));
      Seen(Fragments(s, ps)) == Seen(if |had| + |Payload(ps[..FirstShut(ps)])| <= FRAME_BYTES
                                     then ShutDown(d) else CloseWith(d, CLOSE_UNSUPPORTED_DATA))
    decreases |ps|
  {
    var p, n := ps[0].bytes, FirstShut(ps);
    DrainedTail(ps);
    DrainIfTwice(s, ps[0].drains, Drained(ps[1..]));
    if ps[0].shuts {
      if |ps| > 1 { ClosedIgnores(Arrive(s, ps[0], false), ps[1..]); }
    } else {
      assert ps[..n][1..] == ps[1..][..n - 1];
      if |had| + |p| > FRAME_BYTES {
        ClosedIgnores(Arrive(s, ps[0], false), ps[1..]);
      } else {
        ShutMidway(Arrive(s, ps[0], false), had + p, ps[1..]);
      }
    }
  }

  /** The state without the fragments of an unfinished message, which a closed session never uses again. */
  function Seen(s: Rx): Rx
  {
    s.(pendingFrame := None)
  }

  /** The unfragmented message, arriving when the last fragment does. */
  function Whole(s: Rx, ps: seq<Piece>): Rx
  {
    OnBinary(ShutIf(DrainIf(s, Drained(ps)), FirstShut(ps) < |ps|), Payload(ps), true)
  }

  /**
   Any fragmentation of a binary message, zero-length fragments included, ends in
   exactly the state the unfragmented message ends in, whenever the flush thread
   drains the buffer in between, as long as no other thread closes the session.
   */
  lemma FragmentsSameAsWhole(s: Rx, ps: seq<Piece>)
    requires ps != [] && s.pendingFrame.None? && FirstShut(ps) == |ps|
    ensures Fragments(s, ps) == Whole(s, ps)
  {
    DrainedTail(ps);
    DrainIfTwice(s, ps[0].drains, Drained(ps[1..]));
    if |ps| == 1 {
      assert ps[0].bytes + Payload(ps[1..]) == ps[0].bytes;
    } else if s.closed || !s.started || |ps[0].bytes| > FRAME_BYTES {
      ClosedIgnores(Arrive(s, ps[0], false), ps[1..]);
    } else {
      assert [] + ps[0].bytes == ps[0].bytes;
      RestOfMessage(Arrive(s, ps[0], false), ps[0].bytes, ps[1..]);
    }
  }

  /** The receive thread has not closed the session itself when the writer thread shuts it down. */
  predicate StillOpen(s: Rx, ps: seq<Piece>)
  {
    var n := FirstShut(ps);
    n == 0 || (s.started && |Payload(ps[..n])| <= FRAME_BYTES)
  }

  lemma ShutDuring(s: Rx, ps: seq<Piece>)
    requires ps != [] && s.pendingFrame.None? && !s.closed && s.code.None? && FirstShut(ps) < |ps|
    ensures Seen(Fragments(s, ps)) == Seen(Whole(s, ps)) <==> StillOpen(s, ps)
  {
    if FirstShut(ps) == 0 {
      ShutBefore(s, ps);
    } else if !s.started || |ps[0].bytes| > FRAME_BYTES {
      ShutTooLate(s, ps);
    } else {
      var p, n := ps[0].bytes, FirstShut(ps);
      DrainedTail(ps);
      DrainIfTwice(s, ps[0].drains, Drained(ps[1..]));
      assert ps[..n][1..] == ps[1..][..n - 1];
      assert [] + p == p;
      ShutMidway(Arrive(s, ps[0], false), p, ps[1..]);
    }
  }

  lemma ShutBefore(s: Rx, ps: seq<Piece>)
    requires ps != [] && !s.closed && FirstShut(ps) == 0
    ensures Fragments(s, ps) == Whole(s, ps)
  {
    DrainedTail(ps);
    DrainIfTwice(s, ps[0].drains, Drained(ps[1..]));
    if |ps| > 1 { ClosedIgnores(Arrive(s, ps[0], false), ps[1..]); }
  }

  /** The first fragment already closes the session. */
  lemma ShutTooLate(s: Rx, ps: seq<Piece>)
    requires ps != [] && s.pendingFrame.None? && !s.closed && s.code.None? && 0 < FirstShut(ps) < |ps|
    requires !s.started || |ps[0].bytes| > FRAME_BYTES
    ensures Seen(Fragments(s, ps)) != Seen(Whole(s, ps)) && !StillOpen(s, ps)
  {
    var n := FirstShut(ps);
    assert ps[..n][0] == ps[0];
    ClosedIgnores(Arrive(s, ps[0], false), ps[1..]);
    assert Fragments(s, ps).code.Some? && Whole(s, ps).code.None?;
  }

  /**
   With the writer thread free to shut the session down between fragments, they
   come to the same as the unfragmented message if and only if it does not, or the
   session was closed before, or the receive thread had no cause to close it by
   then: fragments are judged as they come, a whole message only at its end.
   */
  lemma FragmentsSameIff(s: Rx, ps: seq<Piece>)
    requires ps != [] && s.pendingFrame.None? && (s.code.Some? ==> s.closed)
    ensures Seen(Fragments(s, ps)) == Seen(Whole(s, ps))
            <==> s.closed || FirstShut(ps) == |ps| || StillOpen(s, ps)
  {
    if s.closed {
      ClosedIgnores(s, ps);
    } else if FirstShut(ps) == |ps| {
      FragmentsSameAsWhole(s, ps);
    } else {
      ShutDuring(s, ps);
    }
  }

  /**
   What that state is, for an open session: a message of exactly 640 bytes becomes
   one frame with the next sequence number unless the backlog is full, which closes
   with 1013; any other length buffers nothing and closes with 1003.
   */
  lemma FragmentedMessage(s: Rx, ps: seq<Piece>)
    requires ps != [] && s.pendingFrame.None? && s.started && !s.closed && s.code.None? && FirstShut(ps) == |ps|
    ensures var r, room := Fragments(s, ps), DrainIf(s, Drained(ps));
            && r.pendingFrame.None?
            && (|Payload(ps)| == FRAME_BYTES && |room.buffer| < MAX_BACKLOG_FRAMES ==>
                  !r.closed && r.seqNo == s.seqNo + 1 && r.buffer == room.buffer + [Frame(s.seqNo + 1, Payload(ps))])
            && (|Payload(ps)| == FRAME_BYTES && |room.buffer| >= MAX_BACKLOG_FRAMES ==>
                  r.code == Some(CLOSE_TRY_AGAIN_LATER) && r.seqNo == s.seqNo && r.buffer == room.buffer)
            && (|Payload(ps)| != FRAME_BYTES ==>
                  r.code == Some(CLOSE_UNSUPPORTED_DATA) && r.seqNo == s.seqNo && r.buffer == room.buffer)
  {
    FragmentsSameAsWhole(s, ps);
  }

  // ----------------------------------------------------------------- text fragments

  function TextFragments(s: Rx, isStart: string -> bool, ts: seq<string>): Rx
    requires ts != []
    decreases |ts|
  {
    if |ts| == 1 then OnText(s, isStart, ts[0], true)
    else TextFragments(OnText(s, isStart, ts[0], false), isStart, ts[1..])
  }

  function Joined(ts: seq<string>): string
  {
    if ts == [] then "" else ts[0] + Joined(ts[1..])
  }

  lemma {:induction false} ClosedIgnoresText(s: Rx, isStart: string -> bool, ts: seq<string>)
    requires ts != [] && s.closed
    ensures TextFragments(s, isStart, ts) == s
    decreases |ts|
  {
    if |ts| > 1 {
      ClosedIgnoresText(s, isStart, ts[1..]);
    }
  }

  /** What the final fragment leads to, given what is pending. */
  function Reassembled(s: Rx, isStart: string -> bool, message: string): Rx
  {
    if |message| > MAX_START_CHARS then CloseWith(s.(pendingText := None), CLOSE_PROTOCOL_ERROR)
    else Begin(s.(pendingText := None), isStart, message)
  }

  lemma {:induction false} RestOfText(s: Rx, isStart: string -> bool, had: string, ts: seq<string>)
    requires ts != [] && !s.closed && !s.started && s.pendingText == Some(had)
    ensures TextFragments(s, isStart, ts) == Reassembled(s, isStart, had + Joined(ts))
    decreases |ts|
  {
    assert had + Joined(ts) == had + ts[0] + Joined(ts[1..]);
    if |ts| == 1 {
      assert had + ts[0] + Joined(ts[1..]) == had + ts[0];
    } else if |had + ts[0]| > MAX_START_CHARS {
      ClosedIgnoresText(OnText(s, isStart, ts[0], false), isStart, ts[1..]);
    } else {
      RestOfText(OnText(s, isStart, ts[0], false), isStart, had + ts[0], ts[1..]);
    }
  }

  /** What a first message sent in two or more fragments leads to. */
  lemma FragmentedText(s: Rx, isStart: string -> bool, ts: seq<string>)
    requires |ts| >= 2 && !s.closed && !s.started && s.pendingText.None?
    ensures TextFragments(s, isStart, ts) == Reassembled(s, isStart, Joined(ts))
  {
    assert "" + ts[0] == ts[0];
    if |ts[0]| > MAX_START_CHARS {
      ClosedIgnoresText(OnText(s, isStart, ts[0], false), isStart, ts[1..]);
    } else {
      RestOfText(OnText(s, isStart, ts[0], false), isStart, ts[0], ts[1..]);
    }
  }

  /**
   Fragmenting the first message makes no difference exactly when it is at most
   1024 characters long or is not a start message: the length limit applies to
   fragmented messages only.
   */
  lemma TextFragmentsSameIff(s: Rx, isStart: string -> bool, ts: seq<string>)
    requires |ts| >= 2 && !s.closed && !s.started && s.pendingText.None?
    ensures TextFragments(s, isStart, ts) == OnText(s, isStart, Joined(ts), true)
            <==> |Joined(ts)| <= MAX_START_CHARS || !isStart(Joined(ts))
  {
    FragmentedText(s, isStart, ts);
  }

  /** So a long start message is accepted whole and refused in two pieces. */
  lemma LongStartDiffers(s: Rx, isStart: string -> bool, a: string, b: string)
    requires !s.closed && !s.started && s.pendingText.None? && |a + b| > MAX_START_CHARS && isStart(a + b)
    ensures OnText(s, isStart, a + b, true).started
    ensures TextFragments(s, isStart, [a, b]).code == Some(CLOSE_PROTOCOL_ERROR)
  {
    assert Joined([a, b]) == a + (b + "") by { assert Joined([a, b][1..]) == b + ""; }
    assert b + "" == b;
    FragmentedText(s, isStart, [a, b]);
  }

  // ------------------------------------------------------------------ the object

  datatype Stored = Stored(seqNo: nat, payload: array<Byte>)

  ghost predicate StoredApart(buffer: seq<Stored>, a: array?<Byte>)
  {
    forall i :: 0 <= i < |buffer| ==> buffer[i].payload != a
  }

  /** The callbacks of the receive thread; `pendingFrame` is filled in place. */
  class Session {
    var started: bool
    var closed: bool
    var code: Option<int>
    var pendingText: Option<string>
    var pendingFrame: array?<Byte>
    var pendingFrameBytes: nat
    var seqNo: nat
    var buffer: seq<Stored>
    ghost var drained: seq<Frame>

    ghost predicate Valid()
      reads this
    {
      && (pendingFrame != null ==> pendingFrame.Length == FRAME_BYTES && pendingFrameBytes <= FRAME_BYTES)
      && StoredApart(buffer, pendingFrame)
    }

    ghost function Frames(): seq<Frame>
      reads this, set i | 0 <= i < |buffer| :: buffer[i].payload
    {
      var b := buffer;
      seq(|b|, i requires 0 <= i < |b| reads (if 0 <= i < |b| then {b[i].payload} else {}) =>
            Frame(b[i].seqNo, b[i].payload[..]))
    }

    ghost function View(): Rx
      requires Valid()
      reads this, pendingFrame, set i | 0 <= i < |buffer| :: buffer[i].payload
    {
      Rx(started, closed, code, pendingText,
         if pendingFrame == null then None else Some(pendingFrame[..pendingFrameBytes]),
         seqNo, Frames(), drained)
    }

    /** `append`: takes ownership of the array. */
    method AppendFrame(payload: array<Byte>)
      requires Valid() && payload != pendingFrame && StoredApart(buffer, payload)
      modifies this
      ensures Valid() && View() == Append(old(View()), payload[..])
      ensures pendingFrame == old(pendingFrame)
    {
      var backlog := |buffer|;
      if backlog < MAX_BACKLOG_FRAMES {
        seqNo := seqNo + 1;
        buffer := buffer + [Stored(seqNo, payload)];
      }
      if backlog >= MAX_BACKLOG_FRAMES {
        CloseSession(CLOSE_TRY_AGAIN_LATER);
      }
    }

    method CloseSession(c: int)
      requires Valid()
      modifies this`closed, this`code
      ensures Valid() && View() == CloseWith(old(View()), c)
    {
      if !closed {
        closed := true;
        code := Some(c);
      }
    }

    /** `frame.read(pending, offset, available)`. */
    static method Copy(from: Bytes, to: array<Byte>, offset: nat)
      requires offset + |from| <= to.Length
      modifies to
      ensures to[..offset] == old(to[..offset]) && to[..offset + |from|] == old(to[..offset]) + from
    {
      for i := 0 to |from|
        invariant to[..offset] == old(to[..offset])
        invariant to[offset..offset + i] == from[..i]
      {
        to[offset + i] := from[i];
      }
      assert to[..offset + |from|] == to[..offset] + to[offset..offset + |from|];
    }

    /** The binary `onMessage`. */
    method OnBinaryMessage(frame: Bytes, last: bool)
      requires Valid()
      modifies this, if pendingFrame == null then {} else {pendingFrame}
      ensures Valid() && View() == OnBinary(old(View()), frame, last)
    {
      if closed {
        return;
      }
      if !started {
        CloseSession(CLOSE_PROTOCOL_ERROR);
        return;
      }
      if pendingFrame == null {
        if last {
          if |frame| != FRAME_BYTES {
            CloseSession(CLOSE_UNSUPPORTED_DATA);
            return;
          }
          var copy := new Byte[FRAME_BYTES];
          Copy(frame, copy, 0);
          assert copy[..] == frame;
          AppendFrame(copy);
          return;
        }
        pendingFrame := new Byte[FRAME_BYTES];
        pendingFrameBytes := 0;
        assert View() == old(View()).(pendingFrame := Some([]));
      }
      OnFragment(frame, last);
    }

    /** A fragment of a message that has begun. */
    method OnFragment(frame: Bytes, last: bool)
      requires Valid() && !closed && started && pendingFrame != null
      modifies this, pendingFrame
      ensures Valid() && View() == OnBinary(old(View()), frame, last)
    {
      var pending := pendingFrame;
      if |frame| > FRAME_BYTES - pendingFrameBytes {
        pendingFrame := null;
        CloseSession(CLOSE_UNSUPPORTED_DATA);
        return;
      }
      Copy(frame, pending, pendingFrameBytes);
      pendingFrameBytes := pendingFrameBytes + |frame|;
      if !last {
        return;
      }
      pendingFrame := null;
      if pendingFrameBytes != FRAME_BYTES {
        CloseSession(CLOSE_UNSUPPORTED_DATA);
        return;
      }
      assert pending[..] == pending[..pendingFrameBytes];
      assert Frames() == old(Frames());
      AppendFrame(pending);
    }

    /** `shutdown`, run by the writer thread after a failed send. */
    method Shutdown()
      requires Valid()
      modifies this`closed
      ensures Valid() && View() == ShutDown(old(View()))
    {
      closed := true;
    }

    /** The text `onMessage`. */
    method OnTextMessage(isStart: string -> bool, text: string, last: bool)
      requires Valid()
      modifies this
      ensures Valid() && View() == OnText(old(View()), isStart, text, last)
    {
      if closed {
        return;
      }
      if started {
        CloseSession(CLOSE_PROTOCOL_ERROR);
        return;
      }
      var message := text;
      if pendingText.Some? || !last {
        var pending := (if pendingText.None? then "" else pendingText.value) + text;
        if |pending| > MAX_START_CHARS {
          pendingText := None;
          CloseSession(CLOSE_PROTOCOL_ERROR);
          return;
        }
        if !last {
          pendingText := Some(pending);
          return;
        }
        pendingText := None;
        message := pending;
      }
      if !isStart(message) {
        CloseSession(CLOSE_PROTOCOL_ERROR);
        return;
      }
      started := true;
    }

    /** `drainBuffer`, run by the flush thread. */
    method DrainBuffer() returns (batch: seq<Stored>)
      requires Valid()
      modifies this
      ensures Valid() && View() == Drain(old(View())) && batch == old(buffer)
    {
      batch := buffer;
      drained := drained + Frames();
      buffer := [];
    }
  }
}
