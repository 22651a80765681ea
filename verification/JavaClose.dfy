/**
 The close protocol of the Java gateway's session
 (services/java-helidon-nima/src/main/java/stt/session/Session.java:222-322 and
 466-479) as a step system. Each step is one atomic action of one thread: the
 receive thread with its callbacks and Helidon's own close, the writer thread, or
 the flush thread's put. A timed `tryLock` may fail at any time, which covers both
 its timeout and its interrupt. A write takes two steps, so that writes can
 overlap if nothing stops them.
 */
module JavaClose {
  import opened Octets

  datatype Thread = Receive | Writer

  datatype Output = Partial(text: string) | Pong | SessionClose(code: int) | HelidonClose

  /** A write to the socket starts or ends. */
  datatype Mark = Begin(what: Output) | End(what: Output)

  datatype ReceivePc =
    | Idle
    | CloseCas(code: int) | CloseTry(code: int, again: bool)
    | CloseHeld(code: int) | CloseWriting(code: int) | CloseUnlock
    | PingTry | PingHeld | PongReady | PongWriting | PongUnlock
    | ShutCas | ShutTry(again: bool) | ShutHeld | HelidonReady | HelidonWriting | Ended

  datatype WriterPc =
    | NotStarted | Check | Take
    | Lock(text: string) | Held(text: string) | Ready(text: string) | Writing(text: string)
    | Failed | FailedTry | FailedHeld
    | Unlock(more: bool) | Gone

  /**
   `owner` and `holds` are the reentrant lock. History: `puts` is everything put in
   the outbox and `taken` how much of it the writer took; `log` is every write;
   `sealed` is the log's length when a thread first had both set `closed` and taken
   the lock; `wedged` tells that the receive thread gave up on the lock.
   */
  datatype State = State(
    r: ReceivePc,
    w: WriterPc,
    owner: Option<Thread>,
    holds: nat,
    closed: bool,
    puts: seq<string>,
    taken: nat,
    log: seq<Mark>,
    sealed: Option<nat>,
    wedged: bool)

  function Start(): State
  {
    State(Idle, NotStarted, None, 0, false, [], 0, [], None, false)
  }

  datatype Step =
    | CallCloseWith(code: int) | CallPing | CallShutdown
    | ReceiveGoes | ReceiveTryFails
    | WriterStarts | WriterGoes | WriterSendFails | WriterTryFails | WriterInterrupted
    | FlushPuts(text: string)

  predicate Trying(r: ReceivePc) { r.CloseTry? || r.PingTry? || r.ShutTry? }

  predicate Enabled(s: State, e: Step)
  {
    match e
    case CallCloseWith(_) => s.r.Idle?
    case CallPing => s.r.Idle?
    case CallShutdown => s.r.Idle?
    case ReceiveGoes => !s.r.Idle? && !s.r.Ended? && (Trying(s.r) ==> s.owner.None?)
    case ReceiveTryFails => Trying(s.r)
    case WriterStarts => s.w.NotStarted?
    case WriterGoes =>
      && !s.w.NotStarted? && !s.w.Gone?
      && (s.w.Take? ==> s.taken < |s.puts|) && (s.w.Lock? ==> s.owner.None?)
    case WriterSendFails => s.w.Writing?
    case WriterTryFails => s.w.FailedTry?
    case WriterInterrupted => s.w.Take?
    case FlushPuts(_) => true
  }

  function Seal(s: State): State
  {
    if s.sealed.Some? then s else s.(sealed := Some(|s.log|))
  }

  function Acquire(s: State, t: Thread): State
  {
    s.(owner := Some(t), holds := s.holds + 1)
  }

  function Release(s: State): State
  {
    if s.holds <= 1 then s.(owner := None, holds := 0) else s.(holds := s.holds - 1)
  }

  /** What the receive thread's next action writes. It never writes a partial. */
  function ReceiveMark(r: ReceivePc): (m: Option<Mark>)
    ensures m.Some? ==> !m.value.what.Partial?
    ensures m.Some? && m.value.Begin? && m.value.what.SessionClose? <==> r.CloseHeld?
  {
    match r
    case CloseHeld(c) => Some(Begin(SessionClose(c)))
    case CloseWriting(c) => Some(End(SessionClose(c)))
    case PongReady => Some(Begin(Pong))
    case PongWriting => Some(End(Pong))
    case HelidonReady => Some(Begin(HelidonClose))
    case HelidonWriting => Some(End(HelidonClose))
    case _ => None
  }

  function Logged(log: seq<Mark>, m: Option<Mark>): seq<Mark>
  {
    if m.None? then log else log + [m.value]
  }

  /** The rest of that action; it leaves the writer's part of the state alone. */
  function ReceiveMove(s: State): (t: State)
    requires !s.r.Idle? && !s.r.Ended?
    ensures t == s.(r := t.r, owner := t.owner, holds := t.holds, closed := t.closed, sealed := t.sealed)
  {
    match s.r
    case CloseCas(c) => if s.closed then s.(r := Idle) else s.(closed := true, r := CloseTry(c, false))
    case CloseTry(c, _) => Seal(Acquire(s, Receive)).(r := CloseHeld(c))
    case CloseHeld(c) => s.(r := CloseWriting(c))
    case CloseWriting(_) => s.(r := CloseUnlock)
    case CloseUnlock => Release(s).(r := Idle)
    case PingTry => Acquire(s, Receive).(r := PingHeld)
    case PingHeld => s.(r := if s.closed then PongUnlock else PongReady)
    case PongReady => s.(r := PongWriting)
    case PongWriting => s.(r := PongUnlock)
    case PongUnlock => Release(s).(r := Idle)
    case ShutCas => if s.closed then s.(r := HelidonReady) else s.(closed := true, r := ShutTry(false))
    case ShutTry(_) => Seal(Acquire(s, Receive)).(r := ShutHeld)
    case ShutHeld => Release(s).(r := HelidonReady)
    case HelidonReady => s.(r := HelidonWriting)
    case HelidonWriting => s.(r := Ended)
  }

  function ReceiveStep(s: State): State
    requires !s.r.Idle? && !s.r.Ended?
  {
    ReceiveMove(s).(log := Logged(s.log, ReceiveMark(s.r)))
  }

  /** `tryLockSend` returned false. */
  function ReceiveFails(s: State): State
    requires Trying(s.r)
  {
    match s.r
    case CloseTry(c, again) => if again then s.(wedged := true, r := Idle) else s.(r := CloseTry(c, true))
    case PingTry => s.(r := Idle)
    case ShutTry(again) => if again then s.(wedged := true, r := HelidonReady) else s.(r := ShutTry(true))
  }

  function WriterStep(s: State): State
    requires !s.w.NotStarted? && !s.w.Gone? && (s.w.Take? ==> s.taken < |s.puts|)
  {
    match s.w
    case Check => s.(w := if s.closed then Gone else Take)
    case Take => s.(taken := s.taken + 1, w := Lock(s.puts[s.taken]))
    case Lock(p) => Acquire(s, Writer).(w := Held(p))
    case Held(p) => s.(w := if s.closed then Unlock(false) else Ready(p))
    case Ready(p) => s.(log := s.log + [Begin(Partial(p))], w := Writing(p))
    case Writing(p) => s.(log := s.log + [End(Partial(p))], w := Unlock(true))
    case Failed => if s.closed then s.(w := Unlock(false)) else Seal(s.(closed := true)).(w := FailedTry)
    case FailedTry => Acquire(s, Writer).(w := FailedHeld)
    case FailedHeld => Release(s).(w := Unlock(false))
    case Unlock(more) => Release(s).(w := if more then Check else Gone)
  }

  function Next(s: State, e: Step): State
    requires Enabled(s, e)
  {
    match e
    case CallCloseWith(c) => s.(r := CloseCas(c))
    case CallPing => s.(r := PingTry)
    case CallShutdown => s.(r := ShutCas)
    case ReceiveGoes => ReceiveStep(s)
    case ReceiveTryFails => ReceiveFails(s)
    case WriterStarts => s.(w := Check)
    case WriterGoes => WriterStep(s)
    case WriterSendFails => s.(log := s.log + [End(Partial(s.w.text))], w := Failed)
    case WriterTryFails => s.(w := Unlock(false))
    case WriterInterrupted => s.(w := Gone)
    case FlushPuts(p) => s.(puts := s.puts + [p])
  }

  ghost predicate IsRun(ss: seq<State>, es: seq<Step>)
  {
    && |ss| == |es| + 1 && ss[0] == Start()
    && forall i :: 0 <= i < |es| ==> Enabled(ss[i], es[i]) && ss[i + 1] == Next(ss[i], es[i])
  }

  // ---------------------------------------------------------------------- the lock

  predicate ReceiveOwns(r: ReceivePc)
  {
    || r.CloseHeld? || r.CloseWriting? || r.CloseUnlock? || r.ShutHeld?
    || r.PingHeld? || r.PongReady? || r.PongWriting? || r.PongUnlock?
  }

  predicate WriterOwns(w: WriterPc)
  {
    w.Held? || w.Ready? || w.Writing? || w.Failed? || w.FailedTry? || w.FailedHeld? || w.Unlock?
  }

  predicate LockOk(s: State)
  {
    && (ReceiveOwns(s.r) <==> s.owner == Some(Receive))
    && (WriterOwns(s.w) <==> s.owner == Some(Writer))
    && s.holds == if s.owner.None? then 0 else if s.w.FailedHeld? then 2 else 1
  }

  lemma LockReceive(s: State)
    requires LockOk(s) && Enabled(s, ReceiveGoes)
    ensures LockOk(ReceiveStep(s))
  {
  }

  lemma LockWriter(s: State)
    requires LockOk(s) && Enabled(s, WriterGoes)
    ensures LockOk(WriterStep(s))
  {
  }

  lemma LockKept(s: State, e: Step)
    requires LockOk(s) && Enabled(s, e)
    ensures LockOk(Next(s, e))
  {
    match e
    case ReceiveGoes => LockReceive(s);
    case WriterGoes => LockWriter(s);
    case _ =>
  }

  // -------------------------------------------------------------- overlapping writes

  /** Every write that started has ended, before the next one started. */
  predicate Paired(log: seq<Mark>)
    decreases |log|
  {
    || log == []
    || (&& |log| >= 2 && log[|log| - 2].Begin? && log[|log| - 1] == End(log[|log| - 2].what)
        && Paired(log[..|log| - 2]))
  }

  /** The same, except that the last write may be under way. */
  predicate Open(log: seq<Mark>, what: Output)
  {
    log != [] && log[|log| - 1] == Begin(what) && Paired(log[..|log| - 1])
  }

  /** The writes that go through the send lock: all but Helidon's own close. */
  function Locked(log: seq<Mark>): seq<Mark>
    decreases |log|
  {
    if log == [] then []
    else
      var init, m := log[..|log| - 1], log[|log| - 1];
      if m.what.HelidonClose? then Locked(init) else Locked(init) + [m]
  }

  lemma LockedSnoc(log: seq<Mark>, m: Mark)
    ensures Locked(log + [m]) == if m.what.HelidonClose? then Locked(log) else Locked(log) + [m]
  {
    assert (log + [m])[..|log|] == log;
  }

  /** What the thread that holds the lock is writing. */
  function Writes(r: ReceivePc, w: WriterPc): Option<Output>
  {
    match r
    case CloseWriting(c) => Some(SessionClose(c))
    case PongWriting => Some(Pong)
    case _ => if w.Writing? then Some(Partial(w.text)) else None
  }

  function Current(s: State): Option<Output>
  {
    Writes(s.r, s.w)
  }

  /** What is being written at the end of a log, if the writes in it never overlapped. */
  datatype Traffic = Free | During(what: Output) | Overlapping

  function Observe(t: Traffic, m: Mark): Traffic
  {
    match t
    case Free => if m.Begin? then During(m.what) else Overlapping
    case During(what) => if m == End(what) then Free else Overlapping
    case Overlapping => Overlapping
  }

  /** The traffic of a log: all of it, or only the writes under the lock. */
  function TrafficOf(log: seq<Mark>, all: bool): Traffic
    decreases |log|
  {
    if log == [] then Free
    else
      var t, m := TrafficOf(log[..|log| - 1], all), log[|log| - 1];
      if !all && m.what.HelidonClose? then t else Observe(t, m)
  }

  lemma TrafficSnoc(log: seq<Mark>, m: Mark, all: bool)
    ensures TrafficOf(log + [m], all) ==
              if !all && m.what.HelidonClose? then TrafficOf(log, all) else Observe(TrafficOf(log, all), m)
  {
    assert (log + [m])[..|log|] == log;
  }

  lemma {:induction false} TrafficLocked(log: seq<Mark>)
    ensures TrafficOf(log, false) == TrafficOf(Locked(log), true)
    decreases |log|
  {
    if log != [] {
      var init, m := log[..|log| - 1], log[|log| - 1];
      TrafficLocked(init);
      if !m.what.HelidonClose? { TrafficSnoc(Locked(init), m, true); }
    }
  }

  /** The traffic says what `Paired` and `Open` say. */
  lemma {:induction false} TrafficMeans(log: seq<Mark>, what: Output)
    ensures TrafficOf(log, true) == Free <==> Paired(log)
    ensures TrafficOf(log, true) == During(what) <==> Open(log, what)
    decreases |log|
  {
    if log != [] {
      var init, m := log[..|log| - 1], log[|log| - 1];
      TrafficMeans(init, m.what);
      if init != [] { assert init[..|init| - 1] == log[..|log| - 2] && init[|init| - 1] == log[|log| - 2]; }
    }
  }

  function Expected(current: Option<Output>): Traffic
  {
    if current.None? then Free else During(current.value)
  }

  predicate LogShape(log: seq<Mark>, current: Option<Output>, helidon: bool, wedged: bool)
  {
    && TrafficOf(log, false) == Expected(current)
    && (!wedged ==> TrafficOf(log, true) == Expected(if helidon then Some(HelidonClose) else current))
  }

  predicate LogOk(s: State)
  {
    LogShape(s.log, Current(s), s.r.HelidonWriting?, s.wedged)
  }

  // ------------------------------------------------------------------ after the close

  predicate Speaks(m: Mark)
  {
    m.Begin? && (m.what.Partial? || m.what.Pong?)
  }

  /** Somewhere between setting `closed` and being done with the lock. */
  predicate Closing(r: ReceivePc)
  {
    r.CloseTry? || r.CloseHeld? || r.CloseWriting? || r.CloseUnlock? || r.ShutTry? || r.ShutHeld?
  }

  /** What the program counters say about `closed`, `sealed` and `wedged`. */
  predicate SealPc(s: State)
  {
    && (s.sealed.Some? ==> s.closed && !s.r.PongReady? && !s.r.PongWriting? && !s.w.Ready? && !s.w.Writing?)
    && (s.closed ==> s.sealed.Some? || s.wedged || s.r.CloseTry? || s.r.ShutTry?)
    && (s.r.CloseTry? || s.r.ShutTry? || s.r.HelidonReady? || s.r.HelidonWriting? || s.r.Ended? ==> s.closed)
    && (s.r.CloseHeld? || s.r.CloseWriting? || s.r.CloseUnlock? || s.r.ShutHeld? ==> s.sealed.Some?)
    && (s.w.FailedTry? || s.w.FailedHeld? ==> s.sealed.Some?)
    && (s.wedged ==> s.closed && !Closing(s.r) && !s.r.PongReady? && !s.r.PongWriting?)
  }

  /** From the seal on no partial or pong starts, and closes come after it. */
  predicate SealLog(log: seq<Mark>, sealed: Option<nat>, wedged: bool)
  {
    && (sealed.Some? ==> sealed.value <= |log| && forall i :: sealed.value <= i < |log| ==> !Speaks(log[i]))
    && (forall i :: 0 <= i < |log| && log[i].what.SessionClose? ==> sealed.Some? && i >= sealed.value)
    && (!wedged ==> forall i :: 0 <= i < |log| && log[i].what.HelidonClose? ==> sealed.Some? && i >= sealed.value)
  }

  predicate SealOk(s: State)
  {
    SealPc(s) && SealLog(s.log, s.sealed, s.wedged)
  }

  lemma SealNow(log: seq<Mark>, sealed: Option<nat>, wedged: bool)
    requires SealLog(log, sealed, wedged)
    ensures SealLog(log, if sealed.Some? then sealed else Some(|log|), wedged)
    ensures SealLog(log, sealed, true)
  {
  }

  lemma SealPcWriter(s: State)
    requires LockOk(s) && SealPc(s) && Enabled(s, WriterGoes)
    ensures SealPc(WriterStep(s))
  {
  }

  lemma SealPcOther(s: State, e: Step)
    requires SealPc(s) && Enabled(s, e) && !e.ReceiveGoes? && !e.WriterGoes?
    ensures SealPc(Next(s, e))
  {
  }

  /** How a step changes the log and the seal. */
  predicate LogStep(s: State, t: State)
  {
    || (t.log == s.log && (t.sealed == s.sealed || (s.sealed.None? && t.sealed == Some(|s.log|))))
    || (&& |t.log| == |s.log| + 1 && t.log == s.log + [t.log[|s.log|]] && t.sealed == s.sealed
        && var m := t.log[|s.log|];
           && (Speaks(m) ==> s.sealed.None?)
           && (m.what.SessionClose? ==> s.sealed.Some?)
           && (m.what.HelidonClose? ==> s.wedged || s.sealed.Some?))
  }

  lemma LogStepWriter(s: State)
    requires SealPc(s) && Enabled(s, WriterGoes)
    ensures LogStep(s, WriterStep(s)) && WriterStep(s).wedged == s.wedged
  {
  }

  lemma SealLogKept(s: State, t: State)
    requires SealLog(s.log, s.sealed, s.wedged) && LogStep(s, t) && (s.wedged ==> t.wedged)
    ensures SealLog(t.log, t.sealed, t.wedged)
  {
    if t.log == s.log { SealNow(s.log, s.sealed, s.wedged); }
    SealNow(t.log, t.sealed, s.wedged);
  }

  lemma SealKept(s: State, e: Step)
    requires LockOk(s) && SealOk(s) && Enabled(s, e)
    ensures SealOk(Next(s, e))
  {
    if e.WriterGoes? {
      SealPcWriter(s);
      LogStepWriter(s);
    } else if !e.ReceiveGoes? {
      SealPcOther(s, e);
    }
    SealLogKept(s, Next(s, e));
  }

  /** A write starts while none is under way, or ends while it is. */
  lemma Marked(log: seq<Mark>, m: Mark, current: Option<Output>, helidon: bool, wedged: bool)
    requires LogShape(log, current, helidon, wedged)
    requires if m.what.HelidonClose? then helidon == m.End? && (wedged || current.None?)
             else current == (if m.Begin? then None else Some(m.what)) && (wedged || !helidon)
    ensures LogShape(log + [m],
                     if m.what.HelidonClose? then current else if m.Begin? then Some(m.what) else None,
                     if m.what.HelidonClose? then m.Begin? else helidon, wedged)
  {
    TrafficSnoc(log, m, false);
    TrafficSnoc(log, m, true);
  }

  /** A step that writes nothing changes nothing the log's shape depends on. */
  predicate Quiet(s: State, t: State)
  {
    && t.log == s.log && Current(t) == Current(s) && t.r.HelidonWriting? == s.r.HelidonWriting?
    && (t.wedged == s.wedged || t.wedged)
  }

  predicate Marking(r: ReceivePc)
  {
    r.CloseHeld? || r.CloseWriting? || r.PongReady? || r.PongWriting? || r.HelidonReady? || r.HelidonWriting?
  }

  lemma QuietReceive(s: State)
    requires LockOk(s) && Enabled(s, ReceiveGoes) && !Marking(s.r)
    ensures Quiet(s, ReceiveStep(s))
  {
  }

  lemma QuietWriter(s: State)
    requires Enabled(s, WriterGoes) && !s.w.Ready? && !s.w.Writing?
    ensures Quiet(s, WriterStep(s))
  {
  }

  /** Helidon's close and a partial meet only after the receive thread gave up. */
  predicate Apart(s: State)
  {
    && ((s.r.HelidonReady? || s.r.HelidonWriting?) && (s.w.Ready? || s.w.Writing?) ==> s.wedged)
    && (ReceiveOwns(s.r) ==> !s.w.Writing?)
    && (s.w.Ready? || s.w.Writing? ==> !ReceiveOwns(s.r))
  }

  /** Where a marking action leads. */
  function AfterMark(r: ReceivePc): ReceivePc
    requires Marking(r)
  {
    match r
    case CloseHeld(c) => CloseWriting(c)
    case CloseWriting(_) => CloseUnlock
    case PongReady => PongWriting
    case PongWriting => PongUnlock
    case HelidonReady => HelidonWriting
    case HelidonWriting => Ended
  }

  lemma MarkingStep(s: State)
    requires Marking(s.r)
    ensures ReceiveMark(s.r).Some?
    ensures ReceiveStep(s) == s.(log := s.log + [ReceiveMark(s.r).value], r := AfterMark(s.r))
  {
  }

  /** A mark by the receive thread, which the writer's own write does not cross unless wedged. */
  lemma MarkShapes(log: seq<Mark>, r: ReceivePc, w: WriterPc, wedged: bool)
    requires Marking(r)
    requires r.HelidonReady? || r.HelidonWriting? || !w.Writing?
    requires w.Writing? ==> wedged
    requires LogShape(log, Writes(r, w), r.HelidonWriting?, wedged)
    ensures LogShape(log + [ReceiveMark(r).value], Writes(AfterMark(r), w), AfterMark(r).HelidonWriting?, wedged)
  {
    Marked(log, ReceiveMark(r).value, Writes(r, w), r.HelidonWriting?, wedged);
  }

  lemma MarkingReceive(s: State)
    requires Apart(s) && LogOk(s) && Marking(s.r)
    ensures LogOk(ReceiveStep(s))
  {
    MarkingStep(s);
    MarkShapes(s.log, s.r, s.w, s.wedged);
  }

  lemma WriterOpens(s: State, p: string)
    requires Apart(s) && LogOk(s) && s.w == Ready(p)
    ensures LogOk(s.(log := s.log + [Begin(Partial(p))], w := Writing(p)))
  {
    Marked(s.log, Begin(Partial(p)), None, s.r.HelidonWriting?, s.wedged);
  }

  lemma WriterCloses(s: State, w: WriterPc)
    requires Apart(s) && LogOk(s) && s.w.Writing? && !w.Writing?
    ensures LogOk(s.(log := s.log + [End(Partial(s.w.text))], w := w))
  {
    Marked(s.log, End(Partial(s.w.text)), Current(s), s.r.HelidonWriting?, s.wedged);
  }

  lemma QuietKept(s: State, t: State)
    requires LogOk(s) && Quiet(s, t)
    ensures LogOk(t)
  {
  }

  lemma QuietOther(s: State, e: Step)
    requires LockOk(s) && Enabled(s, e) && !e.ReceiveGoes? && !e.WriterGoes? && !e.WriterSendFails?
    ensures Quiet(s, Next(s, e))
  {
  }

  lemma LogKept(s: State, e: Step)
    requires LockOk(s) && Apart(s) && LogOk(s) && Enabled(s, e)
    ensures LogOk(Next(s, e))
  {
    if e.ReceiveGoes? && Marking(s.r) {
      MarkingReceive(s);
    } else if e.WriterGoes? && s.w.Ready? {
      WriterOpens(s, s.w.text);
    } else if e.WriterGoes? && s.w.Writing? {
      WriterCloses(s, Unlock(true));
    } else if e.WriterSendFails? {
      WriterCloses(s, Failed);
    } else {
      if e.ReceiveGoes? { QuietReceive(s); } else if e.WriterGoes? { QuietWriter(s); } else { QuietOther(s, e); }
      QuietKept(s, Next(s, e));
    }
  }

  // ----------------------------------------------------------------- close frames, order

  function Closes(log: seq<Mark>): nat
    decreases |log|
  {
    if log == [] then 0
    else Closes(log[..|log| - 1]) + if log[|log| - 1].Begin? && log[|log| - 1].what.SessionClose? then 1 else 0
  }

  predicate OnceOk(s: State)
  {
    OncePc(Closes(s.log), s.closed, s.r)
  }

  lemma ClosesSnoc(log: seq<Mark>, m: Mark)
    ensures Closes(log + [m]) == Closes(log) + if m.Begin? && m.what.SessionClose? then 1 else 0
  {
    assert (log + [m])[..|log|] == log;
  }

  lemma ClosesReceive(s: State)
    requires Enabled(s, ReceiveGoes)
    ensures Closes(ReceiveStep(s).log) == Closes(s.log) + if s.r.CloseHeld? then 1 else 0
  {
    var m := ReceiveMark(s.r);
    if m.Some? { ClosesSnoc(s.log, m.value); }
  }

  lemma ClosesWriter(s: State)
    requires Enabled(s, WriterGoes)
    ensures Closes(WriterStep(s).log) == Closes(s.log)
  {
    if s.w.Ready? { ClosesSnoc(s.log, Begin(Partial(s.w.text))); }
    if s.w.Writing? { ClosesSnoc(s.log, End(Partial(s.w.text))); }
  }

  /** What `closed` and the receive thread's counter have to say, with `n` close frames written. */
  predicate OncePc(n: nat, closed: bool, r: ReceivePc)
  {
    && n <= 1
    && (!closed || r.CloseTry? || r.CloseHeld? ==> n == 0)
    && (r.CloseTry? || r.CloseHeld? ==> closed)
  }

  lemma OncePcReceive(s: State, n: nat)
    requires OncePc(n, s.closed, s.r) && Enabled(s, ReceiveGoes)
    requires s.r.CloseWriting? || s.r.CloseUnlock? ==> s.closed
    ensures OncePc(if s.r.CloseHeld? then n + 1 else n, ReceiveStep(s).closed, ReceiveStep(s).r)
  {
  }

  lemma OnceKept(s: State, e: Step)
    requires OnceOk(s) && SealPc(s) && Enabled(s, e)
    ensures OnceOk(Next(s, e))
  {
    match e
    case ReceiveGoes =>
      ClosesReceive(s);
      OncePcReceive(s, Closes(s.log));
    case WriterGoes => ClosesWriter(s);
    case WriterSendFails => ClosesSnoc(s.log, End(Partial(s.w.text)));
    case _ =>
  }

  /** The partials whose write started, in order. */
  function Partials(log: seq<Mark>): seq<string>
    decreases |log|
  {
    if log == [] then []
    else
      var m := log[|log| - 1];
      Partials(log[..|log| - 1]) + if m.Begin? && m.what.Partial? then [m.what.text] else []
  }

  /** `done` partials were written out of the `taken` first puts. */
  predicate OrderPc(w: WriterPc, puts: seq<string>, taken: nat, done: seq<string>)
  {
    && taken <= |puts| && done <= puts && |done| <= taken
    && (w.Lock? || w.Held? || w.Ready? ==> taken > 0 && w.text == puts[taken - 1] && |done| == taken - 1)
    && (w.NotStarted? || w.Check? || w.Take? || w.Writing? || w == Unlock(true) ==> |done| == taken)
  }

  predicate OrderOk(s: State)
  {
    OrderPc(s.w, s.puts, s.taken, Partials(s.log))
  }

  lemma PartialsSnoc(log: seq<Mark>, m: Mark)
    ensures Partials(log + [m]) == Partials(log) + if m.Begin? && m.what.Partial? then [m.what.text] else []
  {
    assert (log + [m])[..|log|] == log;
  }

  lemma PartialsReceive(s: State)
    requires Enabled(s, ReceiveGoes)
    ensures Partials(ReceiveStep(s).log) == Partials(s.log)
  {
    var m := ReceiveMark(s.r);
    if m.Some? { PartialsSnoc(s.log, m.value); }
  }

  /** Moves of the writer that neither take nor write a message. */
  predicate Moves(w: WriterPc, w1: WriterPc)
  {
    && (w1.Lock? || w1.Held? || w1.Ready? ==> (w.Lock? || w.Held? || w.Ready?) && w1.text == w.text)
    && (w1.NotStarted? || w1.Check? || w1.Take? || w1.Writing? || w1 == Unlock(true) ==>
          w.NotStarted? || w.Check? || w.Take? || w.Writing? || w == Unlock(true))
  }

  lemma OrderMoves(s: State, t: State)
    requires OrderOk(s) && Moves(s.w, t.w) && t.puts == s.puts && t.taken == s.taken
    requires t.log == s.log || (t.log != [] && t.log == s.log + [t.log[|t.log| - 1]] && !Speaks(t.log[|t.log| - 1]))
    ensures OrderOk(t)
  {
    if t.log != s.log { PartialsSnoc(s.log, t.log[|t.log| - 1]); }
  }

  lemma WriterMoves(s: State)
    requires Enabled(s, WriterGoes) && !s.w.Take? && !s.w.Ready?
    ensures var t := WriterStep(s);
            && Moves(s.w, t.w) && t.puts == s.puts && t.taken == s.taken
            && t.log == if s.w.Writing? then s.log + [End(Partial(s.w.text))] else s.log
  {
  }

  lemma OrderWriter(s: State)
    requires OrderOk(s) && Enabled(s, WriterGoes)
    ensures OrderOk(WriterStep(s))
  {
    if s.w.Ready? {
      PartialsSnoc(s.log, Begin(Partial(s.w.text)));
    } else if !s.w.Take? {
      WriterMoves(s);
      OrderMoves(s, WriterStep(s));
    }
  }

  lemma OrderKept(s: State, e: Step)
    requires OrderOk(s) && Enabled(s, e)
    ensures OrderOk(Next(s, e))
  {
    if e.ReceiveGoes? {
      PartialsReceive(s);
    } else if e.WriterGoes? {
      OrderWriter(s);
    } else if !e.FlushPuts? {
      OrderMoves(s, Next(s, e));
    }
  }

  // ------------------------------------------------------------------ every run

  predicate Inv(s: State)
  {
    LockOk(s) && SealOk(s) && LogOk(s) && OnceOk(s) && OrderOk(s)
  }

  lemma {:induction false} RunInv(ss: seq<State>, es: seq<Step>, i: nat)
    requires IsRun(ss, es) && i < |ss|
    ensures Inv(ss[i])
  {
    if i > 0 {
      RunInv(ss, es, i - 1);
      LockKept(ss[i - 1], es[i - 1]);
      SealKept(ss[i - 1], es[i - 1]);
      LogKept(ss[i - 1], es[i - 1]);
      OnceKept(ss[i - 1], es[i - 1]);
      OrderKept(ss[i - 1], es[i - 1]);
    }
  }

  // ------------------------------------------------------- giving up on the lock

  /** The second wait for the lock ends without it. */
  predicate GivesUp(s: State, e: Step)
  {
    e.ReceiveTryFails? && (s.r == ShutTry(true) || (s.r.CloseTry? && s.r.again))
  }

  /** The writer has seen `closed` unset and has not finished its partial. */
  predicate InFlight(w: WriterPc) { w.Ready? || w.Writing? }

  /** Two writes overlap. */
  ghost predicate Overlaps(log: seq<Mark>)
  {
    !Paired(log) && forall what :: !Open(log, what)
  }

  lemma OverlapsIs(log: seq<Mark>)
    ensures Overlaps(log) <==> TrafficOf(log, true) == Overlapping
  {
    forall what
      ensures Open(log, what) <==> TrafficOf(log, true) == During(what)
      ensures Paired(log) <==> TrafficOf(log, true) == Free
    {
      TrafficMeans(log, what);
    }
    TrafficMeans(log, Pong);
    if TrafficOf(log, true).During? { assert Open(log, TrafficOf(log, true).what); }
  }

  /** A run with a wedged state has a step that gave up. */
  lemma {:induction false} GaveUp(ss: seq<State>, es: seq<Step>, n: nat) returns (k: nat)
    requires IsRun(ss, es) && n < |ss| && ss[n].wedged
    ensures k < n && GivesUp(ss[k], es[k])
  {
    k := n - 1;
    if ss[n - 1].wedged { k := GaveUp(ss, es, n - 1); }
  }

  /** After giving up with no partial in flight: only Helidon's close is ever written. */
  predicate Calm(s: State)
  {
    s.wedged && !InFlight(s.w) && TrafficOf(s.log, true) == if s.r.HelidonWriting? then During(HelidonClose) else Free
  }

  lemma CalmReceive(s: State)
    requires SealPc(s) && Calm(s) && Enabled(s, ReceiveGoes)
    ensures Calm(ReceiveStep(s))
  {
    if Marking(s.r) {
      MarkingStep(s);
      TrafficSnoc(s.log, ReceiveMark(s.r).value, true);
    }
  }

  lemma CalmKept(s: State, e: Step)
    requires SealPc(s) && Calm(s) && Enabled(s, e)
    ensures Calm(Next(s, e))
  {
    if e.ReceiveGoes? { CalmReceive(s); }
  }

  lemma {:induction false} StaysCalm(ss: seq<State>, es: seq<Step>, k: nat, n: nat)
    requires IsRun(ss, es) && k < n < |ss| && GivesUp(ss[k], es[k]) && !InFlight(ss[k].w)
    ensures Calm(ss[n])
  {
    RunInv(ss, es, n - 1);
    if n - 1 > k {
      StaysCalm(ss, es, k, n - 1);
      CalmKept(ss[n - 1], es[n - 1]);
    }
  }

  /** No partial or pong starts after Helidon's close. */
  ghost predicate Hushed(log: seq<Mark>)
  {
    forall i, j :: 0 <= i < j < |log| && log[i].what.HelidonClose? ==> !Speaks(log[j])
  }

  lemma HushedKept(s: State, e: Step)
    requires LockOk(s) && SealPc(s) && s.wedged && !s.w.Ready? && Hushed(s.log) && Enabled(s, e)
    ensures var t := Next(s, e); t.wedged && !t.w.Ready? && Hushed(t.log)
  {
  }

  lemma {:induction false} StaysHushed(ss: seq<State>, es: seq<Step>, k: nat, n: nat)
    requires IsRun(ss, es) && k < n < |ss| && GivesUp(ss[k], es[k]) && !ss[k].w.Ready?
    ensures ss[n].wedged && !ss[n].w.Ready? && Hushed(ss[n].log)
  {
    RunInv(ss, es, n - 1);
    if n - 1 > k {
      StaysHushed(ss, es, k, n - 1);
      HushedKept(ss[n - 1], es[n - 1]);
    }
  }

  // -------------------------------------------------------------------- theorems

  /**
   In every interleaving the writes made under the send lock never overlap. Any
   two writes overlap, Helidon's own close included, only if the receive thread gave
   up on the lock while a partial was in flight.
   */
  lemma WritesNeverOverlap(ss: seq<State>, es: seq<Step>, i: nat)
    requires IsRun(ss, es) && i < |ss|
    ensures !Overlaps(Locked(ss[i].log))
    ensures Overlaps(ss[i].log) ==> exists k :: 0 <= k < i && GivesUp(ss[k], es[k]) && InFlight(ss[k].w)
  {
    RunInv(ss, es, i);
    TrafficLocked(ss[i].log);
    OverlapsIs(Locked(ss[i].log));
    OverlapsIs(ss[i].log);
    if Overlaps(ss[i].log) {
      var k := GaveUp(ss, es, i);
      if !InFlight(ss[k].w) { StaysCalm(ss, es, k, i); }
    }
  }

  /** In every interleaving the session writes at most one close frame. */
  lemma AtMostOneClose(ss: seq<State>, es: seq<Step>, n: nat)
    requires IsRun(ss, es) && n < |ss|
    ensures Closes(ss[n].log) <= 1
  {
    RunInv(ss, es, n);
  }

  /**
   No partial or pong starts after the session's close frame; and one starts after
   Helidon's own close only if the receive thread gave up on the lock while the
   writer stood between its check of `closed` and its write.
   */
  lemma SilentAfterClose(ss: seq<State>, es: seq<Step>, n: nat, i: nat, j: nat)
    requires IsRun(ss, es) && n < |ss| && i < j < |ss[n].log| && Speaks(ss[n].log[j])
    ensures !ss[n].log[i].what.SessionClose?
    ensures ss[n].log[i].what.HelidonClose? ==> exists k :: 0 <= k < n && GivesUp(ss[k], es[k]) && ss[k].w.Ready?
  {
    RunInv(ss, es, n);
    if ss[n].log[i].what.HelidonClose? {
      var k := GaveUp(ss, es, n);
      if !ss[k].w.Ready? { StaysHushed(ss, es, k, n); }
    }
  }

  /** Once a thread that set `closed` has had the lock, no partial or pong starts any more. */
  lemma SilentAfterShutdown(ss: seq<State>, es: seq<Step>, n: nat, j: nat)
    requires IsRun(ss, es) && n < |ss| && ss[n].sealed.Some?
    requires ss[n].sealed.value <= j < |ss[n].log|
    ensures !Speaks(ss[n].log[j]) && ss[n].closed
  {
    RunInv(ss, es, n);
  }

  /** The partials written are a prefix of what the flush thread put, in its order. */
  lemma PartialsInOrder(ss: seq<State>, es: seq<Step>, n: nat)
    requires IsRun(ss, es) && n < |ss|
    ensures Partials(ss[n].log) <= ss[n].puts
  {
    RunInv(ss, es, n);
  }

  // ------------------------------------------------------------- the wedged exit

  lemma Extend(ss: seq<State>, es: seq<Step>, e: Step) returns (ss1: seq<State>, es1: seq<Step>)
    requires IsRun(ss, es) && Enabled(ss[|es|], e)
    ensures Continues(ss, es, ss1, es1) && ss1[|es1|] == Next(ss[|es|], e)
  {
    ss1, es1 := ss + [Next(ss[|es|], e)], es + [e];
  }

  /** A writer about to write. */
  lemma WriterReady(p: string) returns (ss: seq<State>, es: seq<Step>)
    ensures IsRun(ss, es)
    ensures ss[|es|] == State(Idle, Ready(p), Some(Writer), 1, false, [p], 1, [], None, false)
  {
    ss, es := Extend([Start()], [], WriterStarts);
    ss, es := Extend(ss, es, FlushPuts(p));
    ss, es := Extend(ss, es, WriterGoes);
    ss, es := Extend(ss, es, WriterGoes);
    ss, es := Extend(ss, es, WriterGoes);
    ss, es := Extend(ss, es, WriterGoes);
  }

  /** The receive thread can be about to give up with any partial in flight. */
  lemma GivingUpReachable(p: string, begun: bool) returns (ss: seq<State>, es: seq<Step>)
    ensures IsRun(ss, es) && GivesUp(ss[|es|], ReceiveTryFails)
    ensures ss[|es|].w == if begun then Writing(p) else Ready(p)
  {
    ss, es := WriterReady(p);
    if begun { ss, es := Extend(ss, es, WriterGoes); }
    ss, es := Extend(ss, es, CallShutdown);
    ss, es := Extend(ss, es, ReceiveGoes);
    ss, es := Extend(ss, es, ReceiveTryFails);
  }

  /** The run goes on. */
  ghost predicate Continues(ss: seq<State>, es: seq<Step>, ss1: seq<State>, es1: seq<Step>)
  {
    IsRun(ss1, es1) && ss <= ss1 && es <= es1
  }

  ghost predicate CanOverlap(ss: seq<State>, es: seq<Step>)
  {
    exists ss1: seq<State>, es1: seq<Step> :: Continues(ss, es, ss1, es1) && Overlaps(ss1[|es1|].log)
  }

  ghost predicate CanSpeakAfter(ss: seq<State>, es: seq<Step>)
  {
    exists ss1: seq<State>, es1: seq<Step> :: Continues(ss, es, ss1, es1) && !Hushed(ss1[|es1|].log)
  }

  /** After giving up Helidon's close can start at once. */
  lemma HelidonStarts(ss: seq<State>, es: seq<Step>) returns (ss1: seq<State>, es1: seq<Step>)
    requires IsRun(ss, es) && ss[|es|].wedged && ss[|es|].closed && (ss[|es|].r.Idle? || ss[|es|].r.HelidonReady?)
    ensures Continues(ss, es, ss1, es1)
    ensures ss1[|es1|] == ss[|es|].(r := HelidonWriting, log := ss[|es|].log + [Begin(HelidonClose)])
  {
    ss1, es1 := ss, es;
    if ss[|es|].r.Idle? {
      ss1, es1 := Extend(ss1, es1, CallShutdown);
      ss1, es1 := Extend(ss1, es1, ReceiveGoes);
    }
    ss1, es1 := Extend(ss1, es1, ReceiveGoes);
  }

  /** The state a give-up leads to. */
  lemma GivenUp(s: State)
    requires LockOk(s) && SealPc(s) && LogOk(s) && GivesUp(s, ReceiveTryFails)
    ensures var t := ReceiveFails(s);
            && t.wedged && t.closed && (t.r.Idle? || t.r.HelidonReady?) && t.w == s.w && t.log == s.log
            && TrafficOf(s.log, true) == Expected(if s.w.Writing? then Some(Partial(s.w.text)) else None)
  {
  }

  /** Helidon's close starts inside a partial, or a partial inside Helidon's close. */
  lemma Crossed(log: seq<Mark>, p: string)
    ensures TrafficOf(log, true).During? ==> Overlaps(log + [Begin(HelidonClose)])
    ensures Overlaps(log + [Begin(HelidonClose)] + [Begin(Partial(p))])
    ensures !Hushed(log + [Begin(HelidonClose)] + [Begin(Partial(p))])
  {
    var log1 := log + [Begin(HelidonClose)];
    var log2 := log1 + [Begin(Partial(p))];
    TrafficSnoc(log, Begin(HelidonClose), true);
    TrafficSnoc(log1, Begin(Partial(p)), true);
    OverlapsIs(log1);
    OverlapsIs(log2);
    assert log2[|log|] == Begin(HelidonClose) && log2[|log| + 1] == Begin(Partial(p));
  }

  /** It then crosses the partial that was in flight. */
  lemma WedgedOverlaps(ss: seq<State>, es: seq<Step>) returns (ss1: seq<State>, es1: seq<Step>)
    requires IsRun(ss, es) && es != []
    requires GivesUp(ss[|es| - 1], es[|es| - 1]) && InFlight(ss[|es| - 1].w)
    ensures Continues(ss, es, ss1, es1) && Overlaps(ss1[|es1|].log)
    ensures ss[|es| - 1].w.Ready? ==> !Hushed(ss1[|es1|].log)
  {
    var s := ss[|es| - 1];
    assert Inv(s) by { RunInv(ss, es, |es| - 1); }
    GivenUp(s);
    ss1, es1 := HelidonStarts(ss, es);
    Crossed(s.log, s.w.text);
    if s.w.Ready? { ss1, es1 := Extend(ss1, es1, WriterGoes); }
  }

  /**
   Once the receive thread has given up on the lock, the run can go on to
   overlapping writes if and only if a partial was in flight at that step; and to a
   partial that starts after Helidon's close if and only if the writer stood
   between its check of `closed` and its write.
   */
  lemma GiveUpDecides(ss: seq<State>, es: seq<Step>)
    requires IsRun(ss, es) && es != [] && GivesUp(ss[|es| - 1], es[|es| - 1])
    ensures CanOverlap(ss, es) <==> InFlight(ss[|es| - 1].w)
    ensures CanSpeakAfter(ss, es) <==> ss[|es| - 1].w.Ready?
  {
    var k := |es| - 1;
    if InFlight(ss[k].w) { var ss1, es1 := WedgedOverlaps(ss, es); }
    forall ss1: seq<State>, es1: seq<Step> | Continues(ss, es, ss1, es1)
      ensures !InFlight(ss[k].w) ==> !Overlaps(ss1[|es1|].log)
      ensures !ss[k].w.Ready? ==> Hushed(ss1[|es1|].log)
    {
      assert ss1[k] == ss[k] && es1[k] == es[k];
      if !InFlight(ss[k].w) {
        StaysCalm(ss1, es1, k, |es1|);
        OverlapsIs(ss1[|es1|].log);
      }
      if !ss[k].w.Ready? { StaysHushed(ss1, es1, k, |es1|); }
    }
  }
}
