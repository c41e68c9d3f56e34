/**
 Which calls the order guard lets through: exactly those the log of what reached the
 payload asks for, so no candidate the chain moves on to is ever turned away.
 */
module Admission {
  import opened Wrappers
  import opened Delivery
  import opened Payload

  // ----- Reading the log -----

  predicate IsFinalized(log: seq<Event>) {
    Called(FinalizeUsage) in log
  }

  /**
   `cand` was accepted, and since then no candidate was judged, no build failed and
   nothing was delivered.
   */
  ghost predicate StillAcceptable(log: seq<Event>, cand: Candidate) {
    exists j :: 0 <= j < |log| && log[j] == Returned(Supports(cand), Judged(true)) && UndisturbedSince(log, j)
  }

  predicate UndisturbedSince(log: seq<Event>, j: nat) {
    forall k :: j < k < |log| ==> !Judges(log[k]) && !Delivers(log[k]) && (Builds(log[k]) ==> IsBuilt(log[k].answer))
  }

  lemma AcceptableOneMore(log: seq<Event>, e: Event, cand: Candidate)
    ensures StillAcceptable(log + [e], cand)
       <==> if Judges(e) then e == Returned(Supports(cand), Judged(true))
            else StillAcceptable(log, cand) && !Delivers(e) && (Builds(e) ==> IsBuilt(e.answer))
  {
    hide IsBuilt;
    var more := log + [e];
    if Judges(e) {
      if e == Returned(Supports(cand), Judged(true)) {
        assert more[|log|] == e && UndisturbedSince(more, |log|);
      }
      if j :| 0 <= j < |more| && more[j] == Returned(Supports(cand), Judged(true)) && UndisturbedSince(more, j) {
        assert j == |log| by {
          assert more[|log|] == e;
        }
      }
    } else {
      if StillAcceptable(log, cand) && !Delivers(e) && (Builds(e) ==> IsBuilt(e.answer)) {
        var j :| 0 <= j < |log| && log[j] == Returned(Supports(cand), Judged(true)) && UndisturbedSince(log, j);
        assert more[j] == log[j] && forall k :: j < k < |more| ==> more[k] == if k < |log| then log[k] else e;
        assert UndisturbedSince(more, j);
      }
      if StillAcceptable(more, cand) {
        var j :| 0 <= j < |more| && more[j] == Returned(Supports(cand), Judged(true)) && UndisturbedSince(more, j);
        assert j < |log| && more[j] == log[j] && more[|log|] == e;
        assert forall k :: j < k < |log| ==> more[k] == log[k];
        assert UndisturbedSince(log, j);
      }
    }
  }

  lemma BuiltOneMore(log: seq<Event>, e: Event)
    ensures LastBuilt(log + [e])
       <==> if Builds(e) then IsBuilt(e.answer) else LastBuilt(log) && !Judges(e) && !Delivers(e)
  {
    hide IsBuilt;
    var more := log + [e];
    if (if Builds(e) then IsBuilt(e.answer) else LastBuilt(log) && !Judges(e) && !Delivers(e)) {
      StillBuilt(log, e);
    }
    if LastBuilt(more) {
      var j :| 0 <= j < |more| && Builds(more[j]) && IsBuilt(more[j].answer)
               && forall k :: j < k < |more| ==> !Judges(more[k]) && !Builds(more[k]) && !Delivers(more[k]);
      assert more[|log|] == e;
      if j < |log| {
        assert more[j] == log[j] && forall k :: j < k < |log| ==> more[k] == log[k];
      }
    }
  }

  // ----- The guard's state, by the log -----

  ghost predicate Reads(m: Machine) {
    && (m.state.stage >= ROUTED <==> Called(Routing) in m.log)
    && (m.state.stage >= ESTIMATED && m.state.stage != FINALIZED ==> Called(EstimateCost) in m.log)
    && (Called(EstimateCost) in m.log ==> m.state.stage >= ESTIMATED)
    && (StandingOf(m.log).Ready? <==> LastBuilt(m.log))
    && (StandingOf(m.log).Over? <==> SomeDeliveryEnded(m.log))
    && (forall c :: (StandingOf(m.log) == Accepted(c) || StandingOf(m.log) == Ready(c)) <==> StillAcceptable(m.log, c))
  }

  lemma FreshReads()
    ensures Reads(FRESH)
  {
  }

  lemma StageReads(m: Machine, step: Step)
    requires Inv(m) && Reads(m)
    ensures (var t := Next(m, step);
             && (t.state.stage >= ROUTED <==> Called(Routing) in t.log)
             && (t.state.stage >= ESTIMATED && t.state.stage != FINALIZED ==> Called(EstimateCost) in t.log)
             && (Called(EstimateCost) in t.log ==> t.state.stage >= ESTIMATED))
  {
    hide Meaningful, StillAcceptable, LastBuilt, SomeDeliveryEnded, EndsRequest, IsBuilt, StandingOf;
  }

  lemma StandingReads(m: Machine, e: Event)
    requires Inv(m) && Reads(m)
    requires e.Called? || (m.running == Some(e.call) && Fits(e.call, e.answer))
    ensures (var log := m.log + [e];
             && (StandingOf(log).Ready? <==> LastBuilt(log))
             && (StandingOf(log).Over? <==> SomeDeliveryEnded(log))
             && (forall c :: (StandingOf(log) == Accepted(c) || StandingOf(log) == Ready(c)) <==> StillAcceptable(log, c)))
  {
    hide StillAcceptable, LastBuilt, SomeDeliveryEnded, EndsRequest, IsBuilt, StandingOf, Matches, Admits;
    OneMore(m.log, e);
    BuiltOneMore(m.log, e);
    StillEnded(m.log, e);
    forall c
      ensures (StandingOf(m.log + [e]) == Accepted(c) || StandingOf(m.log + [e]) == Ready(c)) <==> StillAcceptable(m.log + [e], c)
    {
      AcceptableOneMore(m.log, e, c);
    }
  }

  lemma {:induction false} RunReads(steps: seq<Step>)
    ensures Reads(RunOf(steps))
  {
    hide Inv, Admits, Fits, Begun, Payload.Ended, StandingOf, StillAcceptable, LastBuilt, SomeDeliveryEnded;
    if steps == [] {
      FreshReads();
    } else {
      var m, step := RunOf(steps[..|steps| - 1]), steps[|steps| - 1];
      RunReads(steps[..|steps| - 1]);
      RunKeeps(steps[..|steps| - 1]);
      StageReads(m, step);
      if step.Arrives? {
        StandingReads(m, Called(step.call));
      } else if m.running.Some? && Fits(m.running.value, step.answer) {
        StandingReads(m, Returned(m.running.value, step.answer));
      }
    }
  }

  // ----- What is admitted -----

  /** What the log must hold for a call to be in order. */
  ghost predicate IsDue(log: seq<Event>, call: Call) {
    match call
    case Routing => !IsFinalized(log)
    case EstimateCost => !IsFinalized(log) && Called(Routing) in log
    case Supports(_) => !IsFinalized(log) && Called(EstimateCost) in log && !SomeDeliveryEnded(log)
    case PrepareUpstream(cand) => !IsFinalized(log) && StillAcceptable(log, cand)
    case Deliver => !IsFinalized(log) && LastBuilt(log)
    case FinalizeUsage => !IsFinalized(log) && Called(Routing) in log
    case Unordered => true
  }

  /**
   Whatever calls came before, however they overlapped and whatever the payload
   answered: with no call running, a call reaches the payload if and only if what
   reached it so far makes the call due. In particular any candidate may be tried
   from the estimate on, until usage is finalized or a delivery ends the request.
   */
  lemma AdmittedExactlyWhen(steps: seq<Step>, call: Call)
    requires RunOf(steps).running.None?
    ensures Next(RunOf(steps), Arrives(call)).log == RunOf(steps).log + (if IsDue(RunOf(steps).log, call) then [Called(call)] else [])
  {
    hide RunOf, Meaningful, StillAcceptable, LastBuilt, SomeDeliveryEnded, StandingOf, Begun;
    var m := RunOf(steps);
    RunKeeps(steps);
    RunReads(steps);
    match call
    case PrepareUpstream(c) => assert StandingOf(m.log) == Accepted(c) || StandingOf(m.log) == Ready(c) <==> StillAcceptable(m.log, c);
    case _ =>
    assert m.log + [] == m.log;
  }

  /** A report ends the request exactly when something reached the caller, by either account, or the report settles it. */
  lemma EndsRequestExactlyWhen(report: Delivery, client: Option<ClientResponse>)
    ensures EndsRequest(Reported(report, client))
       <==> report.committed || report.verdict == Settled || (client.Some? && client.value.committed)
  {
  }

  /** A delivery that hands on leaves the way open: the next candidate can be tried, prepared for and delivered. */
  lemma NextCandidateIsServed(steps: seq<Step>, report: Delivery, client: Option<ClientResponse>, next: Candidate)
    requires RunOf(steps).running == Some(Deliver) && !IsFinalized(RunOf(steps).log)
    requires report.verdict != Settled && !report.committed && (client.None? || !client.value.committed)
    ensures (var rest := [Answers(Reported(report, client)), Arrives(Supports(next)), Answers(Judged(true)),
                          Arrives(PrepareUpstream(next)), Answers(Prepared(BuiltCall(true))), Arrives(Deliver)];
             RunOf(steps + rest).log
             == RunOf(steps).log + [Returned(Deliver, Reported(report, client)),
                                    Called(Supports(next)), Returned(Supports(next), Judged(true)),
                                    Called(PrepareUpstream(next)), Returned(PrepareUpstream(next), Prepared(BuiltCall(true))),
                                    Called(Deliver)])
  {
    var rest := [Answers(Reported(report, client)), Arrives(Supports(next)), Answers(Judged(true)),
                 Arrives(PrepareUpstream(next)), Answers(Prepared(BuiltCall(true))), Arrives(Deliver)];
    RunKeeps(steps);
    HandsOn(RunOf(steps), report, client);
    var m := Next(RunOf(steps), rest[0]);
    FullCycle(m, next);
    hide *;
    StepsOneByOne(steps, rest);
    assert m.log + [Called(Supports(next)), Returned(Supports(next), Judged(true)),
                    Called(PrepareUpstream(next)), Returned(PrepareUpstream(next), Prepared(BuiltCall(true))), Called(Deliver)]
        == RunOf(steps).log + [Returned(Deliver, Reported(report, client)),
                               Called(Supports(next)), Returned(Supports(next), Judged(true)),
                               Called(PrepareUpstream(next)), Returned(PrepareUpstream(next), Prepared(BuiltCall(true))),
                               Called(Deliver)];
  }

  lemma HandsOn(m: Machine, report: Delivery, client: Option<ClientResponse>)
    requires Inv(m) && m.running == Some(Deliver) && !IsFinalized(m.log)
    requires report.verdict != Settled && !report.committed && (client.None? || !client.value.committed)
    ensures Next(m, Answers(Reported(report, client)))
         == Machine(State(ESTIMATED, NOBODY), None, m.log + [Returned(Deliver, Reported(report, client))])
  {
    hide EndsRequest, Meaningful, Matches, StandingOf;
    EndsRequestExactlyWhen(report, client);
  }

  lemma FullCycle(m: Machine, next: Candidate)
    requires m.running.None? && m.state.stage == ESTIMATED
    ensures Next(Next(Next(Next(Next(m, Arrives(Supports(next))), Answers(Judged(true))), Arrives(PrepareUpstream(next))),
                      Answers(Prepared(BuiltCall(true)))), Arrives(Deliver)).log
         == m.log + [Called(Supports(next)), Returned(Supports(next), Judged(true)),
                     Called(PrepareUpstream(next)), Returned(PrepareUpstream(next), Prepared(BuiltCall(true))), Called(Deliver)]
  {
  }

  lemma StepsOneByOne(steps: seq<Step>, rest: seq<Step>)
    requires |rest| == 6
    ensures RunOf(steps + rest)
         == Next(Next(Next(Next(Next(Next(RunOf(steps), rest[0]), rest[1]), rest[2]), rest[3]), rest[4]), rest[5])
  {
    hide Next;
    assert steps + rest[..0] == steps;
    forall i | 0 <= i < 6 ensures RunOf(steps + rest[..i + 1]) == Next(RunOf(steps + rest[..i]), rest[i]) {
      assert (steps + rest[..i + 1])[..|steps| + i] == steps + rest[..i];
    }
    assert rest[..6] == rest;
  }
}
