/**
 What the reader does in the end: the timer stands behind every Read that can wait,
 a stalled body costs a bounded number of steps and then a timeout, and a cancelled
 context is what the caller is told.
 */
module ReaderLiveness {
  import opened Wrappers
  import opened IdleReader

  // ----- The timer never goes missing -----

  /** A queued chunk brings bytes or an error. */
  predicate NothingEmptyQueued(s: State) {
    s.queue.Some? ==> s.queue.value.buf != [] || s.queue.value.err.Some?
  }

  /** Until an error is recorded the timer runs or has fired, unless a Read has just taken its tick. */
  predicate Armed(s: State) {
    s.lastErr.None? && !s.consumer.TimerWon? ==> s.timerRunning || s.timerFired
  }

  predicate Live(s: State) {
    Inv(s) && NothingEmptyQueued(s) && Armed(s)
  }

  lemma FailIsArmed(s: State, e: Option<Err>)
    requires e.Some?
    ensures Armed(Fail(s, e)) && Armed(Fail(Stopped(s), e))
  {
  }

  lemma ReceiveIsArmed(s: State)
    requires Inv(s) && NothingEmptyQueued(s) && InRead(s) && (s.consumer.TimerWon? || Armed(s))
    ensures Armed(Receive(s)) && NothingEmptyQueued(Receive(s)) && !Receive(s).consumer.TimerWon?
  {
    hide Balanced, Repeats, Endings, History, IdleReader.Bytes;
  }

  lemma TopIsArmed(s: State)
    requires Shape(s) && NothingEmptyQueued(s) && Armed(s) && s.consumer.Top?
    ensures Armed(AtTop(s)) && NothingEmptyQueued(AtTop(s))
  {
    hide Fail, Stopped, ServeLeftover;
    if s.leftover != [] {
      if s.ctxErr.Some? {
        FailIsArmed(s.(leftover := []), s.ctxErr);
        FailLeavesQueue(s.(leftover := []), s.ctxErr);
      } else {
        ServeIsArmed(s);
      }
    } else if s.lastErr.Some? {
      assert Return(s, [], s.lastErr).lastErr == s.lastErr;
    } else if s.ctxErr.Some? {
      FailIsArmed(s, s.ctxErr);
      FailLeavesQueue(s, s.ctxErr);
    }
  }

  lemma ServeIsArmed(s: State)
    requires Armed(s) && s.consumer.Top?
    ensures Armed(ServeLeftover(s)) && ServeLeftover(s).queue == s.queue
  {
  }

  lemma FailLeavesQueue(s: State, e: Option<Err>)
    ensures Fail(s, e).queue == s.queue && Fail(Stopped(s), e).queue == s.queue
  {
  }

  lemma ConsumerStepIsArmed(s: State, a: Action)
    requires Live(s) && Enabled(s, a) && (a.Poll? || a.WakeOnContext? || a.WakeOnTimer? || a.WakeOnChunk? || a.AfterTimer?)
    ensures Armed(Next(s, a)) && NothingEmptyQueued(Next(s, a))
  {
    hide Receive, Inv, BodyReturned, Sent, AtTop, Fail, Stopped, Discard, Armed, NothingEmptyQueued;
    if Readable(s) {
      assert InRead(s);
      ReceiveIsArmed(s);
    }
    FailStaysFine(s, s.ctxErr);
    FailStaysFine(Discard(s), s.ctxErr);
    FailStaysFine(s.(timerFired := false), s.ctxErr);
    FailStaysFine(s, Some(if s.firstByteReceived then IdleTimeout else FirstByteTimeout));
    DiscardEmpties(s);
    MoveStaysFine(s, s.(consumer := Blocking));
    MoveStaysFine(s, s.(timerFired := false, consumer := TimerWon));
  }

  lemma FailStaysFine(s: State, e: Option<Err>)
    ensures e.Some? ==> Armed(Fail(s, e)) && Armed(Fail(Stopped(s), e))
    ensures NothingEmptyQueued(s) ==> NothingEmptyQueued(Fail(s, e)) && NothingEmptyQueued(Fail(Stopped(s), e))
    ensures NothingEmptyQueued(s.(timerFired := false)) == NothingEmptyQueued(s)
  {
  }

  lemma DiscardEmpties(s: State)
    ensures NothingEmptyQueued(Discard(s))
  {
  }

  lemma MoveStaysFine(s: State, t: State)
    requires t == s.(consumer := t.consumer, timerFired := t.timerFired)
    ensures NothingEmptyQueued(s) ==> NothingEmptyQueued(t)
    ensures t.consumer.TimerWon? ==> Armed(t)
    ensures Armed(s) && !s.consumer.TimerWon? && t.timerFired == s.timerFired ==> Armed(t)
  {
  }

  lemma OtherStepIsArmed(s: State, a: Action)
    requires Live(s) && Enabled(s, a)
    requires a.CallBody? || a.BodyReturns? || a.Send? || a.AbortSend? || a.Cancel? || a.TimerFires? || a.Close? || a.StartRead?
    ensures Armed(Next(s, a)) && NothingEmptyQueued(Next(s, a))
  {
    hide Receive, Balanced, Repeats, Endings, History, IdleReader.Bytes, AtTop, Polled, TimerFired, ChunkArrived, TimerRechecked;
  }

  lemma StepStaysLive(s: State, a: Action)
    requires Live(s) && Enabled(s, a)
    ensures Live(Next(s, a))
  {
    hide Inv, Armed, NothingEmptyQueued, Next, Fail, Receive, BodyReturned, Sent, AtTop, Polled, TimerFired, ChunkArrived, TimerRechecked;
    StepKeeps(s, a);
    if a.CheckTop? {
      assert Shape(s) by { InvHasShape(s); }
      TopIsArmed(s);
      assert Next(s, a) == AtTop(s) by { CheckTopIs(s); }
    } else if a.Poll? || a.WakeOnContext? || a.WakeOnTimer? || a.WakeOnChunk? || a.AfterTimer? {
      ConsumerStepIsArmed(s, a);
    } else {
      OtherStepIsArmed(s, a);
    }
  }

  lemma LiveHasShape(s: State)
    requires Live(s)
    ensures Shape(s)
  {
  }

  lemma InvHasShape(s: State)
    requires Inv(s)
    ensures Shape(s)
  {
  }

  lemma CheckTopIs(s: State)
    requires Enabled(s, CheckTop)
    ensures Next(s, CheckTop) == AtTop(s)
  {
  }

  lemma {:induction false} RunStaysLive(s: State, run: seq<Action>)
    requires Live(s) && IsRun(s, run)
    ensures Live(After(s, run))
    decreases |run|
  {
    hide Live, Next, Enabled;
    if run != [] {
      StepStaysLive(s, run[0]);
      RunStaysLive(Next(s, run[0]), run[1..]);
    }
  }

  /**
   In every reachable state without a recorded error the timer is running or has
   fired, unless a Read is between taking its tick and acting on it.
   */
  lemma TimerStandsBehindEveryRead(run: seq<Action>)
    requires IsRun(OPENED, run)
    ensures var s := After(OPENED, run);
            s.lastErr.None? && !s.consumer.TimerWon? ==> s.timerRunning || s.timerFired
  {
    hide Inv, IsRun, After;
    OpenedIsSound();
    RunStaysLive(OPENED, run);
  }

  // ----- A Read comes back -----

  /** The steps of a Read itself and of its timer. */
  predicate IsReadStep(a: Action) {
    a.CheckTop? || a.Poll? || a.WakeOnContext? || a.WakeOnTimer? || a.WakeOnChunk? || a.AfterTimer? || a.TimerFires?
  }

  /** A Read in progress, moved by its own steps and its timer's alone. */
  predicate Reading(s: State, run: seq<Action>)
    decreases |run|
  {
    run == [] || (!s.consumer.Outside? && IsReadStep(run[0]) && Enabled(s, run[0]) && Reading(Next(s, run[0]), run[1..]))
  }

  function ReadingEnds(s: State, run: seq<Action>): State
    requires Reading(s, run)
    decreases |run|
  {
    if run == [] then s else ReadingEnds(Next(s, run[0]), run[1..])
  }

  /** How many such steps a Read has left at most. */
  function StepsToGo(s: State): nat {
    match s.consumer
    case Outside => 0
    case TimerWon => 2 + if s.timerRunning then 1 else 0
    case Blocking => 3 + if s.timerRunning then 1 else 0
    case PreCheck => 4 + if s.timerRunning then 1 else 0
    case Top => 5 + if s.timerRunning then 1 else 0
  }

  /** A Read in progress always has a step of its own or of its timer. */
  lemma ReadCanGoOn(s: State)
    requires Live(s) && !s.consumer.Outside?
    ensures exists a :: IsReadStep(a) && Enabled(s, a)
  {
    hide IdleReader.Bytes, Endings, History;
    match s.consumer
    case Top => assert IsReadStep(CheckTop) && Enabled(s, CheckTop);
    case PreCheck => assert IsReadStep(Poll) && Enabled(s, Poll);
    case Blocking =>
      if s.timerRunning {
        assert IsReadStep(TimerFires) && Enabled(s, TimerFires);
      } else {
        assert IsReadStep(WakeOnTimer) && Enabled(s, WakeOnTimer);
      }
    case TimerWon => assert IsReadStep(AfterTimer) && Enabled(s, AfterTimer);
  }

  lemma ReceiveReturns(s: State)
    requires NothingEmptyQueued(s) && InRead(s) && s.room > 0
    ensures Receive(s).consumer.Outside?
  {
  }

  /** A woken Read returns, but for a poll that finds nothing and a timer's tick. */
  lemma WakeReturns(s: State)
    requires NothingEmptyQueued(s) && InRead(s) && s.room > 0
    ensures Polled(s).consumer.Outside? || Polled(s) == s.(consumer := Blocking)
    ensures TimerFired(s).consumer.Outside? || TimerFired(s) == s.(timerFired := false, consumer := TimerWon)
    ensures Readable(s) ==> ChunkArrived(s).consumer.Outside?
    ensures TimerRechecked(s).consumer.Outside? && Fail(Stopped(s), s.ctxErr).consumer.Outside?
  {
    hide Receive, Fail, Stopped, NothingEmptyQueued;
    FailReturns();
    if Readable(s) {
      ReceiveReturns(s);
    }
  }

  /** Within a Read each step of its own returns or comes one place further. */
  predicate MovesOn(s: State, t: State) {
    || t.consumer.Outside?
    || (t.timerRunning == s.timerRunning && ((s.consumer.PreCheck? && t.consumer.Blocking?) || (s.consumer.Blocking? && t.consumer.TimerWon?)))
  }

  lemma WakeMovesOn(s: State, a: Action)
    requires Shape(s) && NothingEmptyQueued(s) && Enabled(s, a)
    requires a.Poll? || a.WakeOnContext? || a.WakeOnTimer? || a.WakeOnChunk? || a.AfterTimer?
    ensures MovesOn(s, Next(s, a)) && InRead(s)
  {
    hide AtTop, Polled, TimerFired, ChunkArrived, TimerRechecked, BodyReturned, Sent, Fail, Stopped, NothingEmptyQueued;
    WakeReturns(s);
  }

  lemma ReadStepGoesOn(s: State, a: Action)
    requires Live(s) && !s.consumer.Outside? && IsReadStep(a) && Enabled(s, a)
    ensures StepsToGo(Next(s, a)) < StepsToGo(s)
  {
    hide Live, AtTop, Next, MovesOn, Shape, NothingEmptyQueued;
    LiveHasShape(s);
    LiveIsNotEmpty(s);
    if a.CheckTop? {
      CheckTopIs(s);
      TopReturnsOrPolls(s);
    } else if a.TimerFires? {
      TickIs(s);
      TickBringsNearer(s);
    } else {
      WakeMovesOn(s, a);
      NearerInRead(s, Next(s, a));
    }
  }

  lemma TickIs(s: State)
    requires s.timerRunning
    ensures Enabled(s, TimerFires) && Next(s, TimerFires) == s.(timerRunning := false, timerFired := true)
  {
    hide AtTop, Polled, TimerFired, ChunkArrived, TimerRechecked, BodyReturned, Sent;
  }

  lemma TickBringsNearer(s: State)
    requires s.timerRunning && !s.consumer.Outside?
    ensures StepsToGo(s.(timerRunning := false, timerFired := true)) < StepsToGo(s)
  {
  }

  lemma NearerInRead(s: State, t: State)
    requires InRead(s) && MovesOn(s, t)
    ensures StepsToGo(t) < StepsToGo(s)
  {
  }

  lemma TopReturnsOrPolls(s: State)
    requires s.consumer.Top?
    ensures AtTop(s).consumer.Outside? || AtTop(s) == s.(consumer := PreCheck)
  {
    hide Fail, Stopped, ServeLeftover, Return;
    assert forall t: State, e :: Fail(t, e).consumer.Outside? by { FailReturns(); }
    assert ServeLeftover(s).consumer.Outside? && Return(s, [], s.lastErr).consumer.Outside? by { ServeReturns(s); }
  }

  lemma FailReturns()
    ensures forall t: State, e :: Fail(t, e).consumer.Outside?
  {
  }

  lemma ServeReturns(s: State)
    ensures ServeLeftover(s).consumer.Outside? && Return(s, [], s.lastErr).consumer.Outside?
  {
  }

  /** The body says nothing more: nothing is queued or left over, nobody cancels. */
  predicate Silent(s: State) {
    s.queue.None? && !s.closedChannel && s.ctxErr.None? && s.leftover == [] && s.lastErr.None?
  }

  function TimeoutOf(s: State): Err {
    if s.firstByteReceived then IdleTimeout else FirstByteTimeout
  }

  /** A silent step: the Read moves on, or its timer goes off for good. */
  lemma SilentStep(s: State, a: Action)
    requires Shape(s) && Silent(s) && !s.consumer.Outside? && IsReadStep(a) && Enabled(s, a)
    ensures (var t := Next(s, a);
             && t.firstByteReceived == s.firstByteReceived
             && (if t.consumer.Outside? then t.outcomes == s.outcomes + [Outcome([], Some(TimeoutOf(s)))]
                 else Silent(t) && t.outcomes == s.outcomes))
  {
    hide Receive, BodyReturned, Sent, AtTop, Polled, TimerFired, ChunkArrived, TimerRechecked, Shape;
    match a
    case CheckTop => SilentTop(s);
    case Poll => SilentPoll(s);
    case WakeOnTimer => SilentTick(s);
    case AfterTimer => SilentTimeout(s);
    case _ =>
  }

  lemma SilentTop(s: State)
    requires Silent(s)
    ensures AtTop(s) == s.(consumer := PreCheck)
  {
    hide Fail, Stopped, ServeLeftover, Return;
  }

  lemma SilentPoll(s: State)
    requires Silent(s)
    ensures Polled(s) == s.(consumer := Blocking)
  {
    hide Receive;
  }

  lemma SilentTick(s: State)
    requires Silent(s)
    ensures TimerFired(s) == s.(timerFired := false, consumer := TimerWon)
  {
    hide Fail;
  }

  lemma SilentTimeout(s: State)
    requires Silent(s)
    ensures TimerRechecked(s)
         == s.(lastErr := Some(TimeoutOf(s)), consumer := Outside, outcomes := s.outcomes + [Outcome([], Some(TimeoutOf(s)))])
  {
    hide Receive;
  }

  /**
   A Read moved by nothing but its own steps and its timer's takes at most six of
   them, and until it is back it always has another. If the body stays silent it
   comes back with the timeout, the first-byte one just if no byte ever came.
   */
  lemma {:induction false} StalledReadTimesOut(s: State, run: seq<Action>)
    requires Live(s) && Reading(s, run)
    ensures (var t := ReadingEnds(s, run);
             && |run| + StepsToGo(t) <= StepsToGo(s) <= 6
             && (!t.consumer.Outside? ==> exists a :: IsReadStep(a) && Enabled(t, a))
             && (Silent(s) && !s.consumer.Outside? && t.consumer.Outside? ==>
                   t.outcomes == s.outcomes + [Outcome([], Some(TimeoutOf(s)))]))
    decreases |run|
  {
    hide Live, Next, Enabled, IsReadStep, Silent;
    if run == [] {
      if !s.consumer.Outside? {
        ReadCanGoOn(s);
      }
    } else {
      var next := Next(s, run[0]);
      StepStaysLive(s, run[0]);
      ReadStepGoesOn(s, run[0]);
      StalledReadTimesOut(next, run[1..]);
      if Silent(s) {
        assert Shape(s) by { LiveHasShape(s); }
        SilentStep(s, run[0]);
        if next.consumer.Outside? {
          assert run[1..] == [];
        }
      }
    }
  }

  /** From every reachable state, a stalled body ends a Read in a timeout, within six steps. */
  lemma EveryStalledReadTimesOut(history: seq<Action>, room: nat, run: seq<Action>)
    requires IsRun(OPENED, history) && room > 0
    requires After(OPENED, history).consumer.Outside? && Silent(After(OPENED, history))
    requires Reading(Next(After(OPENED, history), StartRead(room)), run)
    ensures (var s := After(OPENED, history);
             var t := ReadingEnds(Next(s, StartRead(room)), run);
             && |run| <= 6
             && (!t.consumer.Outside? ==> exists a :: IsReadStep(a) && Enabled(t, a))
             && (t.consumer.Outside? ==> t.outcomes == s.outcomes + [Outcome([], Some(TimeoutOf(s)))]))
  {
    hide Inv, IsRun, After, Reading, ReadingEnds;
    var s := After(OPENED, history);
    OpenedIsSound();
    RunStaysLive(OPENED, history);
    StepStaysLive(s, StartRead(room));
    StalledReadTimesOut(Next(s, StartRead(room)), run);
  }

  // ----- A cancelled context is what the caller is told -----

  /** A Read that begins after the cancellation hands out nothing: it repeats the error on record, or records the context's. */
  lemma CancelledReadFails(s: State)
    requires s.ctxErr.Some? && s.consumer.Top?
    ensures (var t, e := Next(s, CheckTop), if s.leftover == [] && s.lastErr.Some? then s.lastErr else s.ctxErr;
             t.consumer.Outside? && t.lastErr == e && t.outcomes == s.outcomes + [Outcome([], e)] && t.returned == s.returned)
  {
    hide Receive, BodyReturned, Sent, Polled, TimerFired, ChunkArrived, TimerRechecked, ServeLeftover, Stopped;
    StoppedTouchesTheTimer(s);
    StoppedTouchesTheTimer(s.(leftover := []));
    assert s.returned + [] == s.returned;
  }

  lemma StoppedTouchesTheTimer(s: State)
    ensures Stopped(s) == s.(timerRunning := false, timerFired := false)
  {
  }

  /** The error a step may put on record once the context is cancelled. */
  predicate OnlyTheContexts(s: State, t: State) {
    t.lastErr == s.lastErr || t.lastErr == s.ctxErr
  }

  lemma CancelledReceive(s: State)
    requires s.ctxErr.Some? && Readable(s)
    ensures OnlyTheContexts(s, Receive(s))
  {
  }

  /** A Read woken from its wait by anything reports the context's error and no bytes. */
  lemma CancelledWake(s: State, a: Action)
    requires s.ctxErr.Some? && s.consumer.Blocking? && Enabled(s, a) && (a.WakeOnContext? || a.WakeOnTimer? || a.WakeOnChunk?)
    ensures OnlyTheContexts(s, Next(s, a)) && Next(s, a).consumer.Outside?
    ensures Next(s, a).outcomes == s.outcomes + [Outcome([], s.ctxErr)]
  {
    hide Receive, BodyReturned, Sent, Polled, TimerRechecked, AtTop, Stopped;
    StoppedTouchesTheTimer(s);
    StoppedTouchesTheTimer(Discard(s));
  }

  lemma CancelledCheck(s: State)
    requires s.ctxErr.Some? && s.consumer.Top?
    ensures OnlyTheContexts(s, Next(s, CheckTop))
  {
    hide Next;
    CancelledReadFails(s);
  }

  /**
   Once the context is cancelled, whatever error a step records is the context's,
   the body's own last word included; only a Read that had already passed the
   check behind the timer still reports its timeout, on an open, empty channel.
   */
  lemma CancellationTakesPrecedence(s: State, a: Action)
    requires s.ctxErr.Some? && Enabled(s, a)
    ensures OnlyTheContexts(s, Next(s, a))
            || (s.consumer.TimerWon? && a.AfterTimer? && !Readable(s) && Next(s, a).lastErr == Some(TimeoutOf(s)))
  {
    hide BodyReturned, Sent, Receive, AtTop, TimerFired, ChunkArrived, Stopped;
    if Readable(s) {
      CancelledReceive(s);
    }
    match a
    case CheckTop => CancelledCheck(s);
    case WakeOnContext => CancelledWake(s, a);
    case WakeOnTimer => CancelledWake(s, a);
    case WakeOnChunk => CancelledWake(s, a);
    case BodyReturns(data, err) => BodyLeavesErrors(s, a);
    case Send => BodyLeavesErrors(s, a);
    case _ =>
  }

  /** Of the errors recorded after the cancellation, exactly the context's own is recorded unless the Read was already past its check. */
  lemma CancellationIsReportedExactlyWhen(s: State, a: Action)
    requires Shape(s) && s.ctxErr.Some? && Enabled(s, a) && Next(s, a).lastErr != s.lastErr
    ensures Next(s, a).lastErr == s.ctxErr <==> !(a.AfterTimer? && !Readable(s))
  {
    hide BodyReturned, Sent, Receive, AtTop, TimerFired, ChunkArrived, Stopped;
    CancellationTakesPrecedence(s, a);
  }

  /** A disconnect in that last moment is reported as a timeout, wherever a Read waits on a silent body and the timer has fired. */
  lemma DisconnectReportedAsTimeout(s: State)
    requires Silent(s) && s.consumer.Blocking? && s.timerFired
    ensures Enabled(s, WakeOnTimer)
    ensures (var woken := Next(s, WakeOnTimer);
             && Enabled(woken, Cancel(Canceled)) && Enabled(Next(woken, Cancel(Canceled)), AfterTimer)
             && (var end := Next(Next(woken, Cancel(Canceled)), AfterTimer);
                 end.ctxErr == Some(Canceled) && end.outcomes == s.outcomes + [Outcome([], Some(TimeoutOf(s)))]))
  {
    hide AtTop, Polled, TimerFired, ChunkArrived, TimerRechecked, BodyReturned, Sent;
    SilentTick(s);
    LateTimeout(Next(Next(s, WakeOnTimer), Cancel(Canceled)));
  }

  lemma LateTimeout(s: State)
    requires !Readable(s) && s.consumer.TimerWon?
    ensures Next(s, AfterTimer)
         == s.(lastErr := Some(TimeoutOf(s)), consumer := Outside, outcomes := s.outcomes + [Outcome([], Some(TimeoutOf(s)))])
  {
    hide Receive, AtTop, Polled, TimerFired, ChunkArrived, BodyReturned, Sent;
  }

  lemma BodyLeavesErrors(s: State, a: Action)
    requires Enabled(s, a) && (a.BodyReturns? || a.Send?)
    ensures Next(s, a).lastErr == s.lastErr
  {
    hide Polled, TimerFired, ChunkArrived, TimerRechecked, AtTop;
  }

  // ----- What a Read hands out -----

  /** Every Read came back with bytes or with an error. */
  predicate NoEmptyReads(outcomes: seq<Outcome>) {
    forall i :: 0 <= i < |outcomes| ==> (outcomes[i].err.None? <==> outcomes[i].bytes != [])
  }

  lemma MoreNoEmpty(outcomes: seq<Outcome>, o: Outcome)
    requires NoEmptyReads(outcomes) && (o.err.None? <==> o.bytes != [])
    ensures NoEmptyReads(outcomes + [o])
  {
  }

  lemma ReceiveNoEmpty(s: State)
    requires Shape(s) && NothingEmptyQueued(s) && InRead(s) && Readable(s) && NoEmptyReads(s.outcomes)
    ensures NoEmptyReads(Receive(s).outcomes)
  {
    hide NoEmptyReads;
    if s.queue.Some? {
      var c := s.queue.value;
      var n := Min(s.room, |c.buf|);
      var e := if c.err.Some? && s.ctxErr.Some? then s.ctxErr else c.err;
      var o := Outcome(c.buf[..n], if n > 0 then None else e);
      MoreNoEmpty(s.outcomes, o);
      assert Receive(s).outcomes == s.outcomes + [o];
    } else {
      MoreNoEmpty(s.outcomes, Outcome([], HandleClosed(s).lastErr));
    }
  }

  lemma FailNoEmpty(s: State, e: Option<Err>)
    requires NoEmptyReads(s.outcomes) && e.Some?
    ensures NoEmptyReads(Fail(s, e).outcomes) && NoEmptyReads(Fail(Stopped(s), e).outcomes)
  {
  }

  lemma TopNoEmpty(s: State)
    requires Shape(s) && s.consumer.Top? && NoEmptyReads(s.outcomes)
    ensures NoEmptyReads(AtTop(s).outcomes)
  {
    hide Fail, Stopped, ServeLeftover, Return, NoEmptyReads;
    if s.ctxErr.Some? {
      FailNoEmpty(s, s.ctxErr);
      NoEmptyAnyway(s, s.(leftover := []));
      FailNoEmpty(s.(leftover := []), s.ctxErr);
    }
    if s.leftover != [] {
      ServeNoEmpty(s);
    }
    if s.lastErr.Some? {
      RepeatNoEmpty(s);
    }
  }

  lemma NoEmptyAnyway(s: State, t: State)
    requires t.outcomes == s.outcomes
    ensures NoEmptyReads(t.outcomes) == NoEmptyReads(s.outcomes)
  {
  }

  lemma ServeNoEmpty(s: State)
    requires s.leftover != [] && s.room > 0 && NoEmptyReads(s.outcomes)
    ensures NoEmptyReads(ServeLeftover(s).outcomes)
  {
  }

  lemma RepeatNoEmpty(s: State)
    requires s.lastErr.Some? && NoEmptyReads(s.outcomes)
    ensures NoEmptyReads(Return(s, [], s.lastErr).outcomes)
  {
  }

  lemma LiveIsNotEmpty(s: State)
    requires Live(s)
    ensures NothingEmptyQueued(s)
  {
  }

  lemma PollNoEmpty(s: State)
    requires Shape(s) && NothingEmptyQueued(s) && InRead(s) && NoEmptyReads(s.outcomes)
    ensures NoEmptyReads(Polled(s).outcomes)
  {
    hide Receive, NoEmptyReads, Shape, NothingEmptyQueued;
    if Readable(s) { ReceiveNoEmpty(s); }
  }

  lemma TickNoEmpty(s: State)
    requires NoEmptyReads(s.outcomes)
    ensures NoEmptyReads(TimerFired(s).outcomes)
  {
    hide Fail, NoEmptyReads;
    if s.ctxErr.Some? { FailNoEmpty(s.(timerFired := false), s.ctxErr); }
  }

  lemma ArrivalNoEmpty(s: State)
    requires Shape(s) && NothingEmptyQueued(s) && InRead(s) && Readable(s) && NoEmptyReads(s.outcomes)
    ensures NoEmptyReads(ChunkArrived(s).outcomes)
  {
    hide Fail, Stopped, Receive, NoEmptyReads, Shape, NothingEmptyQueued;
    ReceiveNoEmpty(s);
    if s.ctxErr.Some? { FailNoEmpty(Discard(s), s.ctxErr); }
  }

  lemma RecheckNoEmpty(s: State)
    requires Shape(s) && NothingEmptyQueued(s) && InRead(s) && NoEmptyReads(s.outcomes)
    ensures NoEmptyReads(TimerRechecked(s).outcomes)
  {
    hide Fail, Receive, NoEmptyReads, Shape, NothingEmptyQueued;
    if Readable(s) { ReceiveNoEmpty(s); }
    if s.ctxErr.Some? { FailNoEmpty(Discard(s), s.ctxErr); }
    FailNoEmpty(s, Some(if s.firstByteReceived then IdleTimeout else FirstByteTimeout));
  }

  lemma WakeNoEmpty(s: State, a: Action)
    requires Live(s) && Enabled(s, a) && NoEmptyReads(s.outcomes)
    requires a.Poll? || a.WakeOnContext? || a.WakeOnTimer? || a.WakeOnChunk? || a.AfterTimer?
    ensures NoEmptyReads(Next(s, a).outcomes)
  {
    hide Live, NoEmptyReads, Fail, Stopped, BodyReturned, Sent, AtTop, Polled, TimerFired, ChunkArrived, TimerRechecked,
         Shape, NothingEmptyQueued;
    LiveHasShape(s);
    LiveIsNotEmpty(s);
    match a
    case Poll => PollNoEmpty(s);
    case WakeOnContext => FailNoEmpty(s, s.ctxErr);
    case WakeOnTimer => TickNoEmpty(s);
    case WakeOnChunk => ArrivalNoEmpty(s);
    case AfterTimer => RecheckNoEmpty(s);
  }

  lemma StepNoEmpty(s: State, a: Action)
    requires Live(s) && Enabled(s, a) && NoEmptyReads(s.outcomes)
    ensures NoEmptyReads(Next(s, a).outcomes)
  {
    hide Live, Receive, NoEmptyReads, AtTop, Polled, TimerFired, ChunkArrived, TimerRechecked;
    if a.CheckTop? {
      LiveHasShape(s);
      TopNoEmpty(s);
    } else if a.Poll? || a.WakeOnContext? || a.WakeOnTimer? || a.WakeOnChunk? || a.AfterTimer? {
      WakeNoEmpty(s, a);
    }
  }

  lemma {:induction false} RunNoEmpty(s: State, run: seq<Action>)
    requires Live(s) && NoEmptyReads(s.outcomes) && IsRun(s, run)
    ensures NoEmptyReads(After(s, run).outcomes)
    decreases |run|
  {
    hide Live, Next, Enabled, NoEmptyReads;
    if run != [] {
      StepStaysLive(s, run[0]);
      StepNoEmpty(s, run[0]);
      RunNoEmpty(Next(s, run[0]), run[1..]);
    }
  }

  /** No Read of any run comes back with neither bytes nor an error, or with both. */
  lemma EveryReadBringsSomething(run: seq<Action>)
    requires IsRun(OPENED, run)
    ensures NoEmptyReads(After(OPENED, run).outcomes)
  {
    hide Inv, IsRun, After;
    OpenedIsSound();
    RunNoEmpty(OPENED, run);
  }

  /** What is at hand is handed out at once, as much as there is room for. */
  lemma ReadFillsItsRoom(s: State, a: Action)
    requires Shape(s) && NothingEmptyQueued(s) && Enabled(s, a)
    ensures (var t, left := Next(s, a), s.leftover;
             && (a.CheckTop? && left != [] && s.ctxErr.None? ==>
                   t.outcomes == s.outcomes + [Outcome(left[..Min(s.room, |left|)], None)] && t.leftover == left[Min(s.room, |left|)..])
             && ((a.Poll? || a.AfterTimer? || a.WakeOnChunk?) && s.queue.Some? && s.ctxErr.None? && s.queue.value.buf != [] ==>
                   (var buf := s.queue.value.buf;
                    t.outcomes == s.outcomes + [Outcome(buf[..Min(s.room, |buf|)], None)] && t.leftover == buf[Min(s.room, |buf|)..])))
  {
    hide BodyReturned, Sent, Fail, HandleClosed;
  }
}
