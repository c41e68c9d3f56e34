/**
 IdleReadCloser (internal/gateway/idle_reader.go): a reader goroutine, a
 one-slot channel, a timer, a cancellable context and one consumer, as a
 transition system. Every select is free to take any ready case; a channel
 receive and the check that directly follows it are one step.
 */
module IdleReader {
  import opened Wrappers

  datatype Err = EndOfFile | BodyError(code: int) | FirstByteTimeout | IdleTimeout | Canceled | DeadlineExceeded

  predicate IsContext(e: Option<Err>) {
    e == Some(Canceled) || e == Some(DeadlineExceeded)
  }

  predicate IsTimeout(e: Option<Err>) {
    e == Some(FirstByteTimeout) || e == Some(IdleTimeout)
  }

  /** The errors body.Read can report. */
  predicate IsUnderlying(e: Option<Err>) {
    e.Some? && (e.value.EndOfFile? || e.value.BodyError?)
  }

  const READ_BUFFER := 32 * 1024

  datatype Chunk = Chunk(buf: seq<Byte>, err: Option<Err>)

  /** Where readLoop stands; `late` marks a body.Read entered after Close. */
  datatype Reader = Looping | InBody(late: bool) | Sending(chunk: Chunk) | Exited

  /** Where Read stands. */
  datatype Consumer = Outside | Top | PreCheck | Blocking | TimerWon

  /** What one Read returned. */
  datatype Outcome = Outcome(bytes: seq<Byte>, err: Option<Err>)

  datatype State = State(
    reader: Reader, queue: Option<Chunk>, closedChannel: bool, done: bool, aborted: bool,
    ctxErr: Option<Err>, timerRunning: bool, timerFired: bool,
    leftover: seq<Byte>, lastErr: Option<Err>, firstByteReceived: bool, consumer: Consumer, room: nat,
    // history: what the body produced and said last, what was taken off the channel, what Read handed out
    produced: seq<Byte>, bodyErr: Option<Err>, taken: seq<Byte>, returned: seq<Byte>, outcomes: seq<Outcome>)

  const OPENED := State(Looping, None, false, false, false, None, true, false, [], None, false, Outside, 0, [], None, [], [], [])

  datatype Action =
    | CallBody | BodyReturns(data: seq<Byte>, err: Option<Err>) | Send | AbortSend
    | Cancel(cause: Err) | TimerFires | Close
    | StartRead(room: nat) | CheckTop | Poll | WakeOnContext | WakeOnTimer | WakeOnChunk | AfterTimer

  predicate IsReaderStep(a: Action) {
    a.CallBody? || a.BodyReturns? || a.Send? || a.AbortSend?
  }

  predicate Enabled(s: State, a: Action) {
    match a
    case CallBody => s.reader.Looping?
    // a body.Read entered after body.Close fails
    case BodyReturns(data, err) =>
      && s.reader.InBody? && |data| <= READ_BUFFER
      && (err.Some? ==> IsUnderlying(err)) && (s.reader.late ==> err.Some?)
    case Send => s.reader.Sending? && s.queue.None?
    case AbortSend => s.reader.Sending? && s.done
    case Cancel(cause) => s.ctxErr.None? && IsContext(Some(cause))
    case TimerFires => s.timerRunning
    // Read and Close are never concurrent
    case Close => s.consumer.Outside?
    case StartRead(room) => s.consumer.Outside? && room > 0
    case CheckTop => s.consumer.Top?
    case Poll => s.consumer.PreCheck?
    case WakeOnContext => s.consumer.Blocking? && s.ctxErr.Some?
    case WakeOnTimer => s.consumer.Blocking? && s.timerFired
    case WakeOnChunk => s.consumer.Blocking? && (s.queue.Some? || s.closedChannel)
    case AfterTimer => s.consumer.TimerWon?
  }

  function Stopped(s: State): State {
    s.(timerRunning := false, timerFired := false)
  }

  function Return(s: State, bytes: seq<Byte>, err: Option<Err>): State {
    s.(consumer := Outside, returned := s.returned + bytes, outcomes := s.outcomes + [Outcome(bytes, err)])
  }

  /** Record `e` and fail the Read with it. */
  function Fail(s: State, e: Option<Err>): State {
    s.(lastErr := e, consumer := Outside, outcomes := s.outcomes + [Outcome([], e)])
  }

  /**
   handleChunk on a received chunk: copy what fits, keep the rest, re-arm the
   timer for a non-empty chunk, cache a terminal error (the context's one first).
   Without bytes and without an error Read goes round its loop again.
   */
  function HandleChunk(s: State, c: Chunk): State {
    var n := Min(s.room, |c.buf|);
    var e := if c.err.Some? && s.ctxErr.Some? then s.ctxErr else c.err;
    var again := n == 0 && c.err.None?;
    s.(queue := None, taken := s.taken + c.buf, leftover := c.buf[n..],
       firstByteReceived := s.firstByteReceived || c.buf != [],
       timerRunning := c.err.None? && (c.buf != [] || s.timerRunning),
       timerFired := c.err.None? && c.buf == [] && s.timerFired,
       lastErr := if c.err.Some? then e else s.lastErr,
       consumer := if again then Top else Outside,
       returned := s.returned + c.buf[..n],
       outcomes := if again then s.outcomes else s.outcomes + [Outcome(c.buf[..n], if n > 0 then None else e)])
  }

  /** handleChunk on a closed, drained channel. */
  function HandleClosed(s: State): State {
    Fail(Stopped(s), if s.ctxErr.Some? then s.ctxErr else if s.lastErr.None? then Some(EndOfFile) else s.lastErr)
  }

  function Receive(s: State): State
  {
    if s.queue.Some? then HandleChunk(s, s.queue.value) else HandleClosed(s)
  }

  /** The chunk dropped, or nothing when the channel is closed and drained. */
  function Discard(s: State): State {
    s.(queue := None)
  }

  // ----- One step of each kind -----

  function BodyReturned(s: State, data: seq<Byte>, err: Option<Err>): State {
    s.(produced := s.produced + data, bodyErr := err,
       reader := if data != [] || err.Some? then Sending(Chunk(data, err)) else Looping)
  }

  function Sent(s: State, c: Chunk): State {
    if c.err.Some? then s.(queue := Some(c), reader := Exited, closedChannel := true)
    else s.(queue := Some(c), reader := Looping)
  }

  function ServeLeftover(s: State): State {
    var n := Min(s.room, |s.leftover|);
    Return(s.(leftover := s.leftover[n..]), s.leftover[..n], None)
  }

  /** The head of Read's loop: leftover first, then the cached error, then the context. */
  function AtTop(s: State): State {
    if s.leftover != [] then
      if s.ctxErr.Some? then Fail(Stopped(s.(leftover := [])), s.ctxErr) else ServeLeftover(s)
    else if s.lastErr.Some? then Return(s, [], s.lastErr)
    else if s.ctxErr.Some? then Fail(Stopped(s), s.ctxErr)
    else s.(consumer := PreCheck)
  }

  predicate Readable(s: State) {
    s.queue.Some? || s.closedChannel
  }

  function Polled(s: State): State {
    if Readable(s) then Receive(s) else s.(consumer := Blocking)
  }

  function TimerFired(s: State): State {
    if s.ctxErr.Some? then Fail(s.(timerFired := false), s.ctxErr) else s.(timerFired := false, consumer := TimerWon)
  }

  function ChunkArrived(s: State): State {
    if s.ctxErr.Some? then Fail(Stopped(Discard(s)), s.ctxErr) else Receive(s)
  }

  /** The re-check after the timer won: a chunk that made it in time still counts. */
  function TimerRechecked(s: State): State {
    if Readable(s) then
      if s.ctxErr.Some? then Fail(Discard(s), s.ctxErr) else Receive(s)
    else Fail(s, Some(if s.firstByteReceived then IdleTimeout else FirstByteTimeout))
  }

  function Next(s: State, a: Action): State
    requires Enabled(s, a)
  {
    match a
    case CallBody => s.(reader := InBody(s.done))
    case BodyReturns(data, err) => BodyReturned(s, data, err)
    case Send => Sent(s, s.reader.chunk)
    case AbortSend => s.(reader := Exited, closedChannel := true, aborted := true)
    case Cancel(cause) => s.(ctxErr := Some(cause))
    case TimerFires => s.(timerRunning := false, timerFired := true)
    case Close => s.(done := true)
    case StartRead(room) => s.(consumer := Top, room := room)
    case CheckTop => AtTop(s)
    case Poll => Polled(s)
    case WakeOnContext => Fail(Stopped(s), s.ctxErr)
    case WakeOnTimer => TimerFired(s)
    case WakeOnChunk => ChunkArrived(s)
    case AfterTimer => TimerRechecked(s)
  }

  // ----- Runs -----

  predicate IsRun(s: State, run: seq<Action>)
    decreases |run|
  {
    run == [] || (Enabled(s, run[0]) && IsRun(Next(s, run[0]), run[1..]))
  }

  function After(s: State, run: seq<Action>): State
    requires IsRun(s, run)
    decreases |run|
  {
    if run == [] then s else After(Next(s, run[0]), run[1..])
  }

  // ----- The invariant -----

  function Queued(s: State): seq<Byte> {
    if s.queue.Some? then s.queue.value.buf else []
  }

  function InFlight(s: State): seq<Byte> {
    if s.reader.Sending? then s.reader.chunk.buf else []
  }

  predicate InRead(s: State) {
    s.consumer.PreCheck? || s.consumer.Blocking? || s.consumer.TimerWon?
  }

  predicate ChunkShape(c: Chunk, bodyErr: Option<Err>) {
    && (c.buf != [] || c.err.Some?)
    && (c.err.Some? ==> IsUnderlying(c.err) && c.err == bodyErr)
  }

  /** The goroutine, the channel and the cached state fit together. */
  predicate Shape(s: State) {
    && (s.closedChannel <==> s.reader.Exited?)
    && (s.aborted ==> s.done && s.reader.Exited?)
    && (s.reader.Sending? ==> ChunkShape(s.reader.chunk, s.bodyErr))
    && (s.queue.Some? ==> ChunkShape(s.queue.value, s.bodyErr) || s.queue.value.err.None?)
    && (s.queue.Some? && s.queue.value.err.Some? ==> s.reader.Exited?)
    && (s.ctxErr.Some? ==> IsContext(s.ctxErr))
    && (!s.consumer.Outside? ==> s.room > 0)
    && (InRead(s) ==> s.leftover == [] && s.lastErr.None?)
    && (s.firstByteReceived <==> s.taken != [])
  }

  /** The bytes, wherever they are; `cut` once a context error is recorded, `aborted` once a send was given up. */
  datatype Ledger = Ledger(produced: seq<Byte>, taken: seq<Byte>, queued: seq<Byte>, inFlight: seq<Byte>,
                           returned: seq<Byte>, leftover: seq<Byte>, cut: bool, aborted: bool)

  function LedgerOf(s: State): Ledger {
    Ledger(s.produced, s.taken, Queued(s), InFlight(s), s.returned, s.leftover, IsContext(s.lastErr), s.aborted)
  }

  predicate Balanced(l: Ledger) {
    && l.taken <= l.produced
    && (!l.cut ==> l.taken + l.queued + l.inFlight <= l.produced)
    && (!l.cut && !l.aborted ==> l.taken + l.queued + l.inFlight == l.produced)
    && l.returned + l.leftover <= l.taken
    && (!l.cut ==> l.returned + l.leftover == l.taken)
  }

  predicate Bytes(s: State) {
    Balanced(LedgerOf(s))
  }

  /** Without Close an underlying error is cached only once the channel has run dry for good. */
  predicate Endings(s: State) {
    !s.done ==>
      && (IsUnderlying(s.lastErr) ==> s.reader.Exited? && s.queue.None? && s.lastErr == s.bodyErr)
      && (s.closedChannel && s.queue.None? ==> s.lastErr.Some?)
      && (s.closedChannel && s.queue.Some? ==> s.queue.value.err.Some?)
  }

  /** After an outcome with an error, only the same error. */
  predicate Repeats(outcomes: seq<Outcome>) {
    forall i :: 0 <= i < |outcomes| - 1 && outcomes[i].err.Some? ==> outcomes[i + 1] == Outcome([], outcomes[i].err)
  }

  function LastReturned(s: State): Option<Err> {
    if s.outcomes == [] then None else s.outcomes[|s.outcomes| - 1].err
  }

  /** Errors already returned are final: the cached error is that one and nothing is left to serve. */
  predicate History(s: State) {
    && Repeats(s.outcomes)
    && (LastReturned(s).Some? ==> s.leftover == [] && s.lastErr == LastReturned(s) && !InRead(s))
  }

  predicate Inv(s: State) {
    Shape(s) && Bytes(s) && Endings(s) && History(s)
  }

  // ----- Moving bytes -----

  lemma Produce(l: Ledger, data: seq<Byte>)
    requires Balanced(l) && l.inFlight == [] && !l.aborted
    ensures Balanced(l.(produced := l.produced + data, inFlight := data))
  {
    assert l.taken + l.queued + [] == l.taken + l.queued;
  }

  lemma Enqueue(l: Ledger)
    requires Balanced(l) && l.queued == []
    ensures Balanced(l.(queued := l.inFlight, inFlight := []))
  {
    assert l.taken + l.queued + l.inFlight == l.taken + l.inFlight + [];
  }

  lemma Abort(l: Ledger)
    requires Balanced(l)
    ensures Balanced(l.(inFlight := [], aborted := true))
  {
    assert l.taken + l.queued <= l.taken + l.queued + l.inFlight;
    assert l.taken + l.queued + [] == l.taken + l.queued;
  }

  lemma Take(l: Ledger, n: nat)
    requires Balanced(l) && !l.cut && l.leftover == [] && n <= |l.queued|
    ensures Balanced(l.(taken := l.taken + l.queued, queued := [], leftover := l.queued[n..],
                        returned := l.returned + l.queued[..n]))
  {
    assert l.queued == l.queued[..n] + l.queued[n..];
    assert l.taken + l.queued + [] + l.inFlight == l.taken + l.queued + l.inFlight;
    assert l.returned + l.queued[..n] + l.queued[n..] == l.returned + l.queued;
  }

  lemma Serve(l: Ledger, n: nat)
    requires Balanced(l) && n <= |l.leftover|
    ensures Balanced(l.(leftover := l.leftover[n..], returned := l.returned + l.leftover[..n]))
  {
    assert l.leftover == l.leftover[..n] + l.leftover[n..];
    assert l.returned + l.leftover[..n] + l.leftover[n..] == l.returned + l.leftover;
  }

  /** A recorded context error gives up what was left or queued. */
  lemma Cut(l: Ledger, queued: seq<Byte>)
    requires Balanced(l)
    ensures Balanced(l.(cut := true, queued := queued, leftover := []))
    ensures Balanced(l.(cut := true, queued := queued))
  {
    assert l.returned + [] <= l.returned + l.leftover;
  }

  // ----- Each step keeps the invariant -----

  lemma BodyReturnedKeeps(s: State, data: seq<Byte>, err: Option<Err>)
    requires Inv(s) && s.reader.InBody? && (err.Some? ==> IsUnderlying(err))
    ensures Inv(BodyReturned(s, data, err))
  {
    hide Balanced, Repeats;
    Produce(LedgerOf(s), data);
    assert LedgerOf(BodyReturned(s, data, err)) == LedgerOf(s).(produced := s.produced + data, inFlight := data);
  }

  lemma SentKeeps(s: State)
    requires Inv(s) && s.reader.Sending? && s.queue.None?
    ensures Inv(Sent(s, s.reader.chunk))
  {
    hide Balanced, Repeats;
    var c := s.reader.chunk;
    var t := Sent(s, c);
    Enqueue(LedgerOf(s));
    assert InFlight(s) == c.buf && Queued(s) == [];
    if c.err.Some? {
      assert LedgerOf(t) == LedgerOf(s).(queued := c.buf, inFlight := []);
      assert Shape(t);
    } else {
      assert LedgerOf(t) == LedgerOf(s).(queued := c.buf, inFlight := []);
      assert Shape(t);
    }
    assert Endings(t);
  }

  lemma GoroutineKeeps(s: State, a: Action)
    requires Inv(s) && Enabled(s, a) && (a.CallBody? || a.AbortSend? || a.Cancel? || a.TimerFires? || a.Close?)
    ensures Inv(Next(s, a))
  {
    hide Balanced, Repeats, BodyReturned, Sent, AtTop, Polled, TimerFired, ChunkArrived, TimerRechecked, Fail;
    Abort(LedgerOf(s));
    if a.AbortSend? {
      assert LedgerOf(Next(s, a)) == LedgerOf(s).(inFlight := [], aborted := true);
    } else {
      assert LedgerOf(Next(s, a)) == LedgerOf(s);
    }
  }

  lemma RepeatsMore(outcomes: seq<Outcome>, o: Outcome)
    requires Repeats(outcomes)
    requires outcomes != [] && outcomes[|outcomes| - 1].err.Some? ==> o == Outcome([], outcomes[|outcomes| - 1].err)
    ensures Repeats(outcomes + [o])
  {
  }

  /** Failing a Read with a context error, or with a timeout on an open, empty channel. */
  lemma FailKeeps(s: State, e: Option<Err>)
    requires Inv(s) && s.leftover == [] && LastReturned(s).None?
    requires IsContext(e) || (IsTimeout(e) && s.lastErr.None? && !Readable(s))
    ensures Inv(Fail(s, e)) && Inv(Fail(Stopped(s), e))
  {
    hide Inv;
    StoppedKeeps(s);
    FailingKeeps(s, e);
    FailingKeeps(Stopped(s), e);
  }

  lemma StoppedKeeps(s: State)
    requires Inv(s)
    ensures Inv(Stopped(s))
  {
    hide Balanced, Repeats;
    assert LedgerOf(Stopped(s)) == LedgerOf(s);
  }

  lemma FailingKeeps(s: State, e: Option<Err>)
    requires Inv(s) && s.leftover == [] && LastReturned(s).None?
    requires IsContext(e) || (IsTimeout(e) && s.lastErr.None? && !Readable(s))
    ensures Inv(Fail(s, e))
  {
    hide Balanced, Repeats;
    RepeatsMore(s.outcomes, Outcome([], e));
    Cut(LedgerOf(s), Queued(s));
    assert s.returned + [] == s.returned;
    assert LedgerOf(Fail(s, e)) == LedgerOf(s).(cut := IsContext(e));
  }

  lemma DiscardKeeps(s: State)
    requires Inv(s) && s.leftover == [] && LastReturned(s).None? && IsContext(s.ctxErr)
    ensures Inv(Fail(Discard(s), s.ctxErr)) && Inv(Fail(Stopped(Discard(s)), s.ctxErr))
  {
    hide Balanced, Repeats;
    RepeatsMore(s.outcomes, Outcome([], s.ctxErr));
    Cut(LedgerOf(s), []);
    assert s.returned + [] == s.returned;
    assert LedgerOf(Fail(Discard(s), s.ctxErr)) == LedgerOf(s).(cut := true, queued := []);
    assert LedgerOf(Fail(Stopped(Discard(s)), s.ctxErr)) == LedgerOf(s).(cut := true, queued := []);
  }

  /** Closed and drained: only Close gets a Read this far. */
  lemma HandleClosedKeeps(s: State)
    requires Inv(s) && InRead(s) && s.closedChannel && s.queue.None?
    ensures s.done && Inv(HandleClosed(s))
  {
    hide Balanced, Repeats;
    var e := if s.ctxErr.Some? then s.ctxErr else Some(EndOfFile);
    RepeatsMore(s.outcomes, Outcome([], e));
    Cut(LedgerOf(s), Queued(s));
    assert s.returned + [] == s.returned;
    assert LedgerOf(HandleClosed(s)) == LedgerOf(s).(cut := IsContext(e));
  }

  lemma HandleChunkShape(s: State, c: Chunk)
    requires Inv(s) && InRead(s) && s.queue == Some(c)
    ensures Shape(HandleChunk(s, c)) && Endings(HandleChunk(s, c))
  {
    hide Bytes, History;
  }

  lemma HandleChunkBytes(s: State, c: Chunk)
    requires Inv(s) && InRead(s) && s.queue == Some(c)
    ensures Bytes(HandleChunk(s, c))
  {
    hide Balanced, History, Endings;
    var n := Min(s.room, |c.buf|);
    var e := if c.err.Some? && s.ctxErr.Some? then s.ctxErr else c.err;
    var l := LedgerOf(s);
    Take(l, n);
    var moved := l.(taken := l.taken + c.buf, queued := [], leftover := c.buf[n..], returned := l.returned + c.buf[..n]);
    Cut(moved, []);
    if n == 0 {
      assert c.buf[..n] == [] && s.returned + [] == s.returned;
    }
    assert LedgerOf(HandleChunk(s, c)) == moved.(cut := IsContext(e));
  }

  lemma HandleChunkHistory(s: State, c: Chunk)
    requires Inv(s) && InRead(s) && s.queue == Some(c)
    ensures History(HandleChunk(s, c))
  {
    hide Bytes, Endings, History;
    var n, t := Min(s.room, |c.buf|), HandleChunk(s, c);
    var e := if c.err.Some? && s.ctxErr.Some? then s.ctxErr else c.err;
    InReadNothingFailed(s);
    if n == 0 && c.err.None? {
      HistoryGoesOn(s, t);
    } else if n > 0 {
      HistoryGrows(s, t, Outcome(c.buf[..n], None));
    } else {
      assert c.buf[..n] == [];
      HistoryGrows(s, t, Outcome([], e));
    }
  }

  lemma InReadNothingFailed(s: State)
    requires History(s) && InRead(s)
    ensures LastReturned(s).None?
  {
  }

  lemma HistoryGoesOn(s: State, t: State)
    requires History(s) && LastReturned(s).None? && t.outcomes == s.outcomes
    ensures History(t)
  {
    hide Repeats;
  }

  lemma HistoryGrows(s: State, t: State, o: Outcome)
    requires History(s) && LastReturned(s).None? && t.outcomes == s.outcomes + [o]
    requires o.err.Some? ==> t.leftover == [] && t.lastErr == o.err && !InRead(t)
    ensures History(t)
  {
    hide Repeats;
    RepeatsMore(s.outcomes, o);
  }

  lemma HandleChunkKeeps(s: State, c: Chunk)
    requires Inv(s) && InRead(s) && s.queue == Some(c)
    ensures Inv(HandleChunk(s, c))
  {
    hide HandleChunk, Shape, Bytes, Endings, History;
    HandleChunkShape(s, c);
    HandleChunkBytes(s, c);
    HandleChunkHistory(s, c);
  }

  lemma ReceiveKeeps(s: State)
    requires Inv(s) && InRead(s) && Readable(s)
    ensures Inv(Receive(s))
  {
    hide HandleChunk, HandleClosed, Bytes, Endings, History;
    if s.queue.Some? { HandleChunkKeeps(s, s.queue.value); } else { HandleClosedKeeps(s); }
  }

  lemma ServeKeeps(s: State)
    requires Inv(s) && s.consumer.Top? && s.leftover != []
    ensures Inv(ServeLeftover(s))
  {
    hide Balanced, Repeats;
    var n := Min(s.room, |s.leftover|);
    Serve(LedgerOf(s), n);
    RepeatsMore(s.outcomes, Outcome(s.leftover[..n], None));
    assert LedgerOf(ServeLeftover(s))
        == LedgerOf(s).(leftover := s.leftover[n..], returned := s.returned + s.leftover[..n]);
  }

  lemma DropLeftoverKeeps(s: State)
    requires Inv(s) && s.consumer.Top? && s.leftover != [] && s.ctxErr.Some?
    ensures Inv(Fail(Stopped(s.(leftover := [])), s.ctxErr))
  {
    hide Balanced, Repeats;
    RepeatsMore(s.outcomes, Outcome([], s.ctxErr));
    Cut(LedgerOf(s), Queued(s));
    assert s.returned + [] == s.returned;
    assert LedgerOf(Fail(Stopped(s.(leftover := [])), s.ctxErr)) == LedgerOf(s).(cut := true, leftover := []);
  }

  lemma RepeatErrorKeeps(s: State)
    requires Inv(s) && s.consumer.Top? && s.leftover == [] && s.lastErr.Some?
    ensures Inv(Return(s, [], s.lastErr))
  {
    hide Balanced, Repeats;
    RepeatsMore(s.outcomes, Outcome([], s.lastErr));
    assert s.returned + [] == s.returned;
    assert LedgerOf(Return(s, [], s.lastErr)) == LedgerOf(s);
  }

  lemma AtTopKeeps(s: State)
    requires Inv(s) && s.consumer.Top?
    ensures Inv(AtTop(s))
  {
    hide Fail, ServeLeftover, Balanced, Repeats, Return;
    if s.leftover != [] {
      if s.ctxErr.Some? { DropLeftoverKeeps(s); } else { ServeKeeps(s); }
    } else if s.lastErr.Some? {
      RepeatErrorKeeps(s);
    } else if s.ctxErr.Some? {
      FailKeeps(s, s.ctxErr);
    } else {
      assert LedgerOf(s.(consumer := PreCheck)) == LedgerOf(s);
    }
  }

  /** Moving on within Read changes nothing but the consumer's place and the timer. */
  lemma MoveKeeps(s: State, t: State)
    requires Inv(s) && InRead(s) && InRead(t)
    requires t == s.(consumer := t.consumer, timerFired := t.timerFired)
    ensures Inv(t)
  {
    hide Balanced, Repeats;
    assert LedgerOf(t) == LedgerOf(s);
  }

  lemma WakeKeeps(s: State, a: Action)
    requires Inv(s) && Enabled(s, a)
    requires a.Poll? || a.WakeOnContext? || a.WakeOnTimer? || a.WakeOnChunk? || a.AfterTimer?
    ensures Inv(Next(s, a))
  {
    hide Fail, Receive, Balanced, Repeats, BodyReturned, Sent, AtTop, Discard, Stopped;
    if s.ctxErr.Some? {
      FailKeeps(s, s.ctxErr);
      DiscardKeeps(s);
    }
    if Readable(s) { ReceiveKeeps(s); }
    if a.WakeOnTimer? {
      var quiet := s.(timerFired := false);
      MoveKeeps(s, quiet);
      MoveKeeps(s, s.(timerFired := false, consumer := TimerWon));
      if s.ctxErr.Some? { FailKeeps(quiet, s.ctxErr); }
    } else if a.Poll? {
      MoveKeeps(s, s.(consumer := Blocking));
    } else if a.AfterTimer? && !Readable(s) {
      FailKeeps(s, Some(if s.firstByteReceived then IdleTimeout else FirstByteTimeout));
    }
  }

  lemma StartKeeps(s: State, room: nat)
    requires Inv(s) && s.consumer.Outside? && room > 0
    ensures Inv(s.(consumer := Top, room := room))
  {
    hide Balanced, Repeats;
    assert LedgerOf(s.(consumer := Top, room := room)) == LedgerOf(s);
  }

  /** Whatever is scheduled next, the invariant stays. */
  lemma StepKeeps(s: State, a: Action)
    requires Inv(s) && Enabled(s, a)
    ensures Inv(Next(s, a))
  {
    hide Inv, Fail, Receive, BodyReturned, Sent, AtTop, Polled, TimerFired, ChunkArrived, TimerRechecked;
    match a
    case BodyReturns(data, err) => BodyReturnedKeeps(s, data, err);
    case Send => SentKeeps(s);
    case StartRead(room) => StartKeeps(s, room);
    case CheckTop => AtTopKeeps(s);
    case Poll => WakeKeeps(s, a);
    case WakeOnContext => WakeKeeps(s, a);
    case WakeOnTimer => WakeKeeps(s, a);
    case WakeOnChunk => WakeKeeps(s, a);
    case AfterTimer => WakeKeeps(s, a);
    case _ => GoroutineKeeps(s, a);
  }

  lemma {:induction false} RunKeeps(s: State, run: seq<Action>)
    requires Inv(s) && IsRun(s, run)
    ensures Inv(After(s, run))
    decreases |run|
  {
    hide Inv, Next, Enabled;
    if run != [] {
      StepKeeps(s, run[0]);
      RunKeeps(Next(s, run[0]), run[1..]);
    }
  }

  // ----- What every run keeps -----

  lemma OpenedIsSound()
    ensures Inv(OPENED)
  {
  }

  lemma Reachable(run: seq<Action>)
    requires IsRun(OPENED, run)
    ensures Inv(After(OPENED, run))
  {
    hide Inv, IsRun, After;
    OpenedIsSound();
    RunKeeps(OPENED, run);
  }

  /**
   Conservation: until a context error is recorded or a send is given up after
   Close, every byte the body produced is in exactly one place. What Read hands
   out is in any case a prefix of it.
   */
  lemma BytesAreConserved(run: seq<Action>)
    requires IsRun(OPENED, run)
    ensures var s := After(OPENED, run);
            && s.returned <= s.produced
            && (!IsContext(s.lastErr) && !s.aborted ==>
                  s.produced == s.returned + s.leftover + Queued(s) + InFlight(s))
            && (s.aborted ==> s.done)
  {
    hide After, IsRun;
    Reachable(run);
    var s := After(OPENED, run);
    assert s.returned <= s.returned + s.leftover;
  }

  /** Without Close, Read reports EOF or an underlying error only after all there was, and it is the body's last word. */
  lemma EndComesAfterEverything(run: seq<Action>)
    requires IsRun(OPENED, run)
    ensures var s := After(OPENED, run);
            !s.done && IsUnderlying(LastReturned(s)) ==>
              s.returned == s.produced && s.reader.Exited? && LastReturned(s) == s.bodyErr
  {
    hide After, IsRun;
    Reachable(run);
    var s := After(OPENED, run);
    if !s.done && IsUnderlying(LastReturned(s)) {
      assert s.returned + [] == s.returned && s.taken + [] + [] == s.taken;
    }
  }

  /** A timeout is recorded only on an open, empty channel; it is the first-byte one exactly when nothing ever came. */
  lemma TimeoutMeansSilence(run: seq<Action>, a: Action)
    requires IsRun(OPENED, run) && Enabled(After(OPENED, run), a)
    ensures var s := After(OPENED, run);
            var t := Next(s, a);
            IsTimeout(t.lastErr) && t.lastErr != s.lastErr ==>
              && s.queue.None? && !s.closedChannel
              && (t.lastErr == Some(FirstByteTimeout) <==> t.taken == [])
  {
    hide After, IsRun, Bytes, Endings, History;
    Reachable(run);
    TimeoutStep(After(OPENED, run), a);
  }

  predicate NoNewTimeout(s: State, t: State) {
    IsTimeout(t.lastErr) ==> t.lastErr == s.lastErr
  }

  lemma ReceivingNeverTimesOut(s: State)
    requires Shape(s) && Readable(s)
    ensures NoNewTimeout(s, Receive(s))
  {
  }

  lemma TimeoutStep(s: State, a: Action)
    requires Shape(s) && Enabled(s, a)
    ensures var t := Next(s, a);
            IsTimeout(t.lastErr) && t.lastErr != s.lastErr ==>
              && s.queue.None? && !s.closedChannel
              && (t.lastErr == Some(FirstByteTimeout) <==> t.taken == [])
  {
    hide Receive, BodyReturned, Sent, AtTop, ServeLeftover;
    if Readable(s) { ReceivingNeverTimesOut(s); }
    match a
    case BodyReturns(data, err) => assert NoNewTimeout(s, Next(s, a)) by { QuietSteps(s, a); }
    case Send => assert NoNewTimeout(s, Next(s, a)) by { QuietSteps(s, a); }
    case CheckTop => assert NoNewTimeout(s, Next(s, a)) by { QuietSteps(s, a); }
    case Poll =>
    case WakeOnContext =>
    case WakeOnTimer =>
    case WakeOnChunk =>
    case AfterTimer =>
    case _ => assert NoNewTimeout(s, Next(s, a));
  }

  lemma QuietSteps(s: State, a: Action)
    requires Shape(s) && Enabled(s, a) && (a.BodyReturns? || a.Send? || a.CheckTop?)
    ensures NoNewTimeout(s, Next(s, a))
  {
    hide Polled, TimerFired, ChunkArrived, TimerRechecked, AtTop, Shape;
    if a.CheckTop? {
      AtTopNeverTimesOut(s);
    }
  }

  lemma AtTopNeverTimesOut(s: State)
    requires Shape(s)
    ensures NoNewTimeout(s, AtTop(s))
  {
    hide ServeLeftover, Fail, Stopped;
    if s.leftover != [] {
      if s.ctxErr.Some? { FailRecords(s.(leftover := []), s.ctxErr); } else { ServeLeavesReader(s); }
    } else if s.lastErr.None? && s.ctxErr.Some? {
      FailRecords(s, s.ctxErr);
    }
  }

  lemma FailRecords(s: State, e: Option<Err>)
    ensures Fail(Stopped(s), e).lastErr == e
  {
  }

  lemma {:induction false} RepeatsForever(outcomes: seq<Outcome>, i: nat, j: nat)
    requires Repeats(outcomes) && i < j < |outcomes| && outcomes[i].err.Some?
    ensures outcomes[j] == Outcome([], outcomes[i].err)
  {
    if j > i + 1 {
      RepeatsForever(outcomes, i, j - 1);
    }
  }

  /** Once a Read failed, every later Read fails the same way with no bytes, whatever is cancelled meanwhile. */
  lemma FailuresAreFinal(run: seq<Action>, i: nat, j: nat)
    requires IsRun(OPENED, run)
    requires i < j < |After(OPENED, run).outcomes| && After(OPENED, run).outcomes[i].err.Some?
    ensures After(OPENED, run).outcomes[j] == Outcome([], After(OPENED, run).outcomes[i].err)
  {
    hide After, IsRun;
    Reachable(run);
    RepeatsForever(After(OPENED, run).outcomes, i, j);
  }

  // ----- The goroutine exits -----

  /** A bound on the goroutine's remaining steps once Close was called. */
  function StepsLeft(r: Reader): nat {
    match r
    case Exited => 0
    case Sending(c) => if c.err.Some? then 1 else 4
    case InBody(late) => if late then 2 else 5
    case Looping => 3
  }

  function ReaderSteps(run: seq<Action>): nat {
    if run == [] then 0 else (if IsReaderStep(run[0]) then 1 else 0) + ReaderSteps(run[1..])
  }

  lemma ConsumerLeavesReader(s: State, a: Action)
    requires Enabled(s, a) && (a.CheckTop? || a.Poll? || a.WakeOnContext? || a.WakeOnTimer? || a.WakeOnChunk? || a.AfterTimer?)
    ensures Next(s, a).reader == s.reader && Next(s, a).done == s.done
  {
    hide AtTop, Receive, BodyReturned, Sent, Fail, Stopped;
    ReceiveLeavesReader(s);
    FailLeavesReader(s, s.ctxErr);
    FailLeavesReader(Discard(s), s.ctxErr);
    FailLeavesReader(s.(timerFired := false), s.ctxErr);
    FailLeavesReader(s, Some(if s.firstByteReceived then IdleTimeout else FirstByteTimeout));
    AtTopLeavesReader(s);
  }

  lemma FailLeavesReader(s: State, e: Option<Err>)
    ensures Fail(s, e).reader == s.reader && Fail(s, e).done == s.done
    ensures Fail(Stopped(s), e).reader == s.reader && Fail(Stopped(s), e).done == s.done
  {
  }

  lemma AtTopLeavesReader(s: State)
    ensures AtTop(s).reader == s.reader && AtTop(s).done == s.done
  {
    hide Fail, Stopped, ServeLeftover;
    if s.leftover != [] {
      ServeLeavesReader(s);
      FailLeavesReader(s.(leftover := []), s.ctxErr);
    } else {
      FailLeavesReader(s, s.ctxErr);
    }
  }

  lemma ServeLeavesReader(s: State)
    ensures ServeLeftover(s).reader == s.reader && ServeLeftover(s).done == s.done
    ensures ServeLeftover(s).lastErr == s.lastErr
  {
  }

  lemma ReceiveLeavesReader(s: State)
    ensures Receive(s).reader == s.reader && Receive(s).done == s.done
  {
  }

  lemma ClosedStep(s: State, a: Action)
    requires s.done && Enabled(s, a)
    ensures Next(s, a).done
    ensures IsReaderStep(a) ==> StepsLeft(Next(s, a).reader) < StepsLeft(s.reader)
    ensures !IsReaderStep(a) ==> Next(s, a).reader == s.reader
  {
    hide AtTop, Polled, TimerFired, ChunkArrived, TimerRechecked;
    if a.CheckTop? || a.Poll? || a.WakeOnContext? || a.WakeOnTimer? || a.WakeOnChunk? || a.AfterTimer? {
      ConsumerLeavesReader(s, a);
    }
  }

  /** After Close the goroutine takes at most its remaining steps, never more than five. */
  lemma {:induction false} ClosedReaderIsBounded(s: State, run: seq<Action>)
    requires s.done && IsRun(s, run)
    ensures ReaderSteps(run) + StepsLeft(After(s, run).reader) <= StepsLeft(s.reader) <= 5
    decreases |run|
  {
    hide Next, Enabled;
    if run != [] {
      ClosedStep(s, run[0]);
      ClosedReaderIsBounded(Next(s, run[0]), run[1..]);
    }
  }

  /** Until it exits the closed goroutine can always take a step, even if nobody reads. */
  lemma ClosedReaderIsNeverStuck(s: State)
    requires s.done && !s.reader.Exited?
    ensures exists a :: IsReaderStep(a) && Enabled(s, a)
  {
    match s.reader
    case Looping => assert Enabled(s, CallBody);
    case InBody(late) => assert Enabled(s, BodyReturns([], Some(BodyError(0))));
    case Sending(c) => assert Enabled(s, AbortSend);
  }
}
