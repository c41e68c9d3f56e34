/**
 The call-order guard around a modality's payload (internal/gateway/modality_order.go):
 which calls reach the payload behind it, and what every interleaving of calls keeps.
 */
module Payload {
  import opened Wrappers
  import opened Delivery

  // ----- Calls -----

  /** Candidates are compared by value; the zero one is nobody. */
  type Candidate = nat
  const NOBODY: Candidate := 0

  const ADMITTED: nat := 0
  const ROUTED: nat := 1
  const ESTIMATED: nat := 2
  const SUPPORTED: nat := 3
  const PREPARED: nat := 4
  const DELIVERED: nat := 5
  const FINALIZED: nat := 6

  datatype Call =
    | Routing
    | EstimateCost
    | Supports(cand: Candidate)
    | PrepareUpstream(cand: Candidate)
    | Deliver
    | FinalizeUsage
    | Unordered

  /** What building an upstream call came to: an error, nothing at all, or a call whose path passes the check or not. */
  datatype Built = BuildFailed | BuiltNothing | BuiltCall(pathOk: bool)

  /** How the payload behind the guard answers; Threw is a panic of its own. */
  datatype Answer =
    | Threw
    | Plain
    | Judged(ok: bool)
    | Prepared(built: Built)
    | Reported(report: Delivery, client: Option<ClientResponse>)

  predicate Fits(call: Call, a: Answer) {
    match call
    case Supports(_) => a.Threw? || a.Judged?
    case PrepareUpstream(_) => a.Threw? || a.Prepared?
    case Deliver => a.Threw? || a.Reported?
    case _ => a.Threw? || a.Plain?
  }

  predicate IsBuilt(a: Answer) {
    a.Prepared? && a.built.BuiltCall? && a.built.pathOk
  }

  /** A delivery after which no other candidate can serve the request. */
  predicate EndsRequest(a: Answer) {
    a.Reported? && (Reconcile(a.client, a.report).committed || Reconcile(a.client, a.report).verdict == Settled)
  }

  // ----- One call -----

  datatype State = State(stage: nat, supported: Candidate)

  /** The order assertions a call must pass; failing one panics. */
  predicate Admits(st: State, call: Call) {
    match call
    case Routing => st.stage != FINALIZED
    case EstimateCost => st.stage != FINALIZED && st.stage >= ROUTED
    case Supports(_) => st.stage != FINALIZED && st.stage != DELIVERED && st.stage >= ESTIMATED
    case PrepareUpstream(cand) => st.stage != FINALIZED && st.stage != DELIVERED && st.stage >= SUPPORTED && cand == st.supported
    case Deliver => st.stage != FINALIZED && st.stage != DELIVERED && st.stage >= PREPARED
    case FinalizeUsage => st.stage != FINALIZED && st.stage >= ROUTED
    case Unordered => true
  }

  /** What a call changes before the payload behind runs. */
  function Begun(st: State, call: Call): State {
    match call
    case Routing => if st.stage < ROUTED then st.(stage := ROUTED) else st
    case EstimateCost => if st.stage < ESTIMATED then st.(stage := ESTIMATED) else st
    case FinalizeUsage => st.(stage := FINALIZED)
    case _ => st
  }

  /** What its answer changes. */
  function Ended(st: State, call: Call, a: Answer): State {
    match call
    case Supports(cand) =>
      if a.Judged? then (if a.ok then State(SUPPORTED, cand) else State(ESTIMATED, NOBODY)) else st
    case PrepareUpstream(_) =>
      if a.Prepared? then (if IsBuilt(a) then st.(stage := PREPARED) else State(ESTIMATED, NOBODY)) else st
    case Deliver =>
      if a.Reported? then State(if EndsRequest(a) then DELIVERED else ESTIMATED, NOBODY) else st
    case _ => st
  }

  // ----- The guard -----

  datatype Outcome = Ran | Busy | Panicked

  /** The result of a call made while `inCall` says whether another is running, the payload answering `a` if it runs. */
  ghost predicate Obeys(before: State, inCall: bool, call: Call, a: Answer, after: State, outcome: Outcome) {
    if inCall then outcome == Busy && after == before
    else if !Admits(before, call) then outcome == Panicked && after == before
    else
      && after == Ended(Begun(before, call), call, a)
      && outcome == if a.Threw? then Panicked else Ran
  }

  class OrderedPayload {
    var stage: nat
    var supported: Candidate
    var inCall: bool

    function View(): State
      reads this
    {
      State(stage, supported)
    }

    constructor ()
      ensures View() == State(ADMITTED, NOBODY) && !inCall
    {
      stage, supported, inCall := ADMITTED, NOBODY, false;
    }

    /** Mark a call in flight; false when another already is. */
    method Enter() returns (ok: bool)
      modifies this`inCall
      ensures ok == !old(inCall) && inCall
    {
      if inCall {
        return false;
      }
      inCall := true;
      return true;
    }

    method RoutingIntent(threw: bool) returns (outcome: Outcome)
      modifies this
      ensures inCall == old(inCall)
      ensures Obeys(old(View()), old(inCall), Routing, if threw then Threw else Plain, View(), outcome)
    {
      var ok := Enter();
      if !ok {
        return Busy;
      }
      if stage == FINALIZED {
        inCall := false;
        return Panicked;
      }
      if stage < ROUTED {
        stage := ROUTED;
      }
      inCall := false;
      return if threw then Panicked else Ran;
    }

    method Estimate(threw: bool) returns (outcome: Outcome)
      modifies this
      ensures inCall == old(inCall)
      ensures Obeys(old(View()), old(inCall), EstimateCost, if threw then Threw else Plain, View(), outcome)
    {
      var ok := Enter();
      if !ok {
        return Busy;
      }
      if stage == FINALIZED || stage < ROUTED {
        inCall := false;
        return Panicked;
      }
      if stage < ESTIMATED {
        stage := ESTIMATED;
      }
      inCall := false;
      return if threw then Panicked else Ran;
    }

    /** `inner` is the payload's own judgement, None when it panics. A busy or refused call accepts nobody. */
    method SupportsCandidate(cand: Candidate, inner: Option<bool>) returns (outcome: Outcome, accepted: bool)
      modifies this
      ensures inCall == old(inCall)
      ensures Obeys(old(View()), old(inCall), Supports(cand), if inner.Some? then Judged(inner.value) else Threw, View(), outcome)
      ensures accepted <==> outcome == Ran && inner == Some(true)
    {
      var ok := Enter();
      if !ok {
        return Busy, false;
      }
      if stage == FINALIZED || stage == DELIVERED || stage < ESTIMATED || inner.None? {
        inCall := false;
        return Panicked, false;
      }
      if inner.value {
        supported := cand;
        stage := SUPPORTED;
        inCall := false;
        return Ran, true;
      }
      supported := NOBODY;
      stage := ESTIMATED;
      inCall := false;
      return Ran, false;
    }

    method Prepare(cand: Candidate, inner: Option<Built>) returns (outcome: Outcome, prepared: bool)
      modifies this
      ensures inCall == old(inCall)
      ensures Obeys(old(View()), old(inCall), PrepareUpstream(cand), if inner.Some? then Prepared(inner.value) else Threw, View(), outcome)
      ensures prepared <==> outcome == Ran && inner == Some(BuiltCall(true))
    {
      var ok := Enter();
      if !ok {
        return Busy, false;
      }
      if stage == FINALIZED || stage == DELIVERED || stage < SUPPORTED || cand != supported || inner.None? {
        inCall := false;
        return Panicked, false;
      }
      var failed := inner.value.BuildFailed?;
      if !failed {
        failed := inner.value.BuiltNothing? || !inner.value.pathOk;
      }
      inCall := false;
      if failed {
        stage := ESTIMATED;
        supported := NOBODY;
        return Ran, false;
      }
      stage := PREPARED;
      return Ran, true;
    }

    /** A busy Deliver is still reconciled: the call in flight may have committed a response. */
    method DeliverResponse(client: Option<ClientResponse>, inner: Option<Delivery>) returns (outcome: Outcome, d: Delivery)
      modifies this
      ensures inCall == old(inCall)
      ensures Obeys(old(View()), old(inCall), Deliver, if inner.Some? then Reported(inner.value, client) else Threw, View(), outcome)
      ensures outcome == Ran ==> inner.Some? && d == Reconcile(client, inner.value)
      ensures outcome == Busy ==> d == Reconcile(client, Undelivered(500, Settled, Gateway, "payload_busy"))
    {
      d := Undelivered(500, Settled, Gateway, "payload_busy");
      var ok := Enter();
      if !ok {
        return Busy, Reconcile(client, d);
      }
      if stage == FINALIZED || stage == DELIVERED || stage < PREPARED || inner.None? {
        inCall := false;
        return Panicked, d;
      }
      d := Reconcile(client, inner.value);
      supported := NOBODY;
      inCall := false;
      if d.committed || d.verdict == Settled {
        stage := DELIVERED;
        return Ran, d;
      }
      stage := ESTIMATED;
      return Ran, d;
    }

    method Finalize(threw: bool) returns (outcome: Outcome)
      modifies this
      ensures inCall == old(inCall)
      ensures Obeys(old(View()), old(inCall), FinalizeUsage, if threw then Threw else Plain, View(), outcome)
    {
      var ok := Enter();
      if !ok {
        return Busy;
      }
      if stage == FINALIZED || stage < ROUTED {
        inCall := false;
        return Panicked;
      }
      stage := FINALIZED;
      inCall := false;
      return if threw then Panicked else Ran;
    }
  }

  // ----- Every interleaving of calls -----

  /** What the payload behind the guard sees. */
  datatype Event = Called(call: Call) | Returned(call: Call, answer: Answer)

  datatype Machine = Machine(state: State, running: Option<Call>, log: seq<Event>)

  datatype Step = Arrives(call: Call) | Answers(answer: Answer)

  /** A call arriving is refused when one runs, panics when out of order, and otherwise reaches the payload. */
  function Next(m: Machine, step: Step): Machine {
    match step
    case Arrives(call) =>
      if m.running.Some? || !Admits(m.state, call) then m
      else Machine(Begun(m.state, call), Some(call), m.log + [Called(call)])
    case Answers(a) =>
      if m.running.None? || !Fits(m.running.value, a) then m
      else Machine(Ended(m.state, m.running.value, a), None, m.log + [Returned(m.running.value, a)])
  }

  const FRESH := Machine(State(ADMITTED, NOBODY), None, [])

  function RunOf(steps: seq<Step>): Machine {
    if steps == [] then FRESH else Next(RunOf(steps[..|steps| - 1]), steps[|steps| - 1])
  }

  /** A call in one piece is the guard's method. */
  lemma SerialCallsObey(m: Machine, call: Call, a: Answer)
    requires Fits(call, a)
    ensures (var after := Next(Next(m, Arrives(call)), Answers(a));
             m.running.None? ==> Obeys(m.state, false, call, a, after.state,
                                       if !Admits(m.state, call) || a.Threw? then Panicked else Ran))
    ensures m.running.Some? ==> Obeys(m.state, true, call, a, Next(m, Arrives(call)).state, Busy)
  {
  }

  // ----- Reading the log -----

  predicate Judges(e: Event) {
    e.Returned? && e.call.Supports? && e.answer.Judged?
  }

  predicate Builds(e: Event) {
    e.Returned? && e.call.PrepareUpstream? && e.answer.Prepared?
  }

  predicate Delivers(e: Event) {
    e.Returned? && e.call.Deliver? && e.answer.Reported?
  }

  /** Where the attempt cycle stands, by the answers alone. */
  datatype Standing = Nobody | Accepted(cand: Candidate) | Ready(cand: Candidate) | Over

  function StandingOf(log: seq<Event>): Standing {
    if log == [] then Nobody
    else
      var e := log[|log| - 1];
      if Judges(e) then (if e.answer.ok then Accepted(e.call.cand) else Nobody)
      else if Builds(e) then (if IsBuilt(e.answer) then Ready(e.call.cand) else Nobody)
      else if Delivers(e) then (if EndsRequest(e.answer) then Over else Nobody)
      else StandingOf(log[..|log| - 1])
  }

  /** The last judgement in the log accepted `cand`, and no delivery has been reported since. */
  ghost predicate LastAccepted(log: seq<Event>, cand: Candidate) {
    exists j :: 0 <= j < |log| && log[j] == Returned(Supports(cand), Judged(true))
                && forall k :: j < k < |log| ==> !Judges(log[k]) && !Delivers(log[k])
  }

  /** The last thing that came of the attempt cycle is a successful build. */
  ghost predicate LastBuilt(log: seq<Event>) {
    exists j :: 0 <= j < |log| && Builds(log[j]) && IsBuilt(log[j].answer)
                && forall k :: j < k < |log| ==> !Judges(log[k]) && !Builds(log[k]) && !Delivers(log[k])
  }

  ghost predicate SomeDeliveryEnded(log: seq<Event>) {
    exists j :: 0 <= j < |log| && Delivers(log[j]) && EndsRequest(log[j].answer)
  }

  predicate InCycle(call: Call) {
    call.Supports? || call.PrepareUpstream? || call.Deliver?
  }

  /** The i-th event is a call the payload should have been reached by. */
  ghost predicate InOrder(log: seq<Event>, i: nat)
    requires i < |log|
  {
    log[i].Called? ==>
      && (log[i].call.PrepareUpstream? ==> LastAccepted(log[..i], log[i].call.cand))
      && (log[i].call.Deliver? ==> LastBuilt(log[..i]))
      && (InCycle(log[i].call) ==> !SomeDeliveryEnded(log[..i]))
      && (!log[i].call.Unordered? ==> Called(FinalizeUsage) !in log[..i])
  }

  // ----- The invariant -----

  predicate Matches(st: State, log: seq<Event>) {
    match StandingOf(log)
    case Nobody => st.stage <= ESTIMATED
    case Accepted(cand) => st.stage == SUPPORTED && st.supported == cand
    case Ready(cand) => st.stage == PREPARED && st.supported == cand
    case Over => st.stage == DELIVERED
  }

  ghost predicate Meaningful(log: seq<Event>) {
    && (StandingOf(log).Accepted? || StandingOf(log).Ready? ==> LastAccepted(log, StandingOf(log).cand))
    && (StandingOf(log).Ready? ==> LastBuilt(log))
    && (SomeDeliveryEnded(log) ==> StandingOf(log).Over?)
  }

  ghost predicate Inv(m: Machine) {
    && m.state.stage <= FINALIZED
    && (m.state.stage == FINALIZED <==> Called(FinalizeUsage) in m.log)
    && (m.state.stage != FINALIZED ==> Matches(m.state, m.log))
    && (m.running.Some? && m.state.stage != FINALIZED ==> Admits(m.state, m.running.value))
    && (m.running.Some? && m.running.value.PrepareUpstream? ==> StandingOf(m.log).Ready? || StandingOf(m.log).Accepted?)
    && (m.running.Some? && m.running.value.PrepareUpstream? ==> StandingOf(m.log).cand == m.running.value.cand)
    && (m.running.Some? && InCycle(m.running.value) ==> StandingOf(m.log) != Over && m.state.stage != FINALIZED)
    && Meaningful(m.log)
  }

  // ----- The invariant holds in every run -----

  lemma OneMore(log: seq<Event>, e: Event)
    ensures (log + [e])[..|log|] == log && (log + [e])[|log|] == e
    ensures StandingOf(log + [e])
            == if Judges(e) then (if e.answer.ok then Accepted(e.call.cand) else Nobody)
               else if Builds(e) then (if IsBuilt(e.answer) then Ready(e.call.cand) else Nobody)
               else if Delivers(e) then (if EndsRequest(e.answer) then Over else Nobody)
               else StandingOf(log)
  {
    assert (log + [e])[..|log|] == log;
  }

  lemma StillAccepted(log: seq<Event>, e: Event, cand: Candidate)
    requires if Judges(e) then e == Returned(Supports(cand), Judged(true)) else LastAccepted(log, cand) && !Delivers(e)
    ensures LastAccepted(log + [e], cand)
  {
    hide EndsRequest;
    var more := log + [e];
    if Judges(e) {
      assert more[|log|] == e;
    } else {
      var j :| 0 <= j < |log| && log[j] == Returned(Supports(cand), Judged(true))
               && forall k :: j < k < |log| ==> !Judges(log[k]) && !Delivers(log[k]);
      assert more[j] == log[j] && forall k :: j < k < |more| ==> more[k] == if k < |log| then log[k] else e;
    }
  }

  lemma StillBuilt(log: seq<Event>, e: Event)
    requires if Builds(e) then IsBuilt(e.answer) else LastBuilt(log) && !Judges(e) && !Delivers(e)
    ensures LastBuilt(log + [e])
  {
    hide IsBuilt;
    var more := log + [e];
    if Builds(e) {
      assert more[|log|] == e;
    } else {
      var j :| 0 <= j < |log| && Builds(log[j]) && IsBuilt(log[j].answer)
               && forall k :: j < k < |log| ==> !Judges(log[k]) && !Builds(log[k]) && !Delivers(log[k]);
      assert more[j] == log[j] && forall k :: j < k < |more| ==> more[k] == if k < |log| then log[k] else e;
    }
  }

  lemma StillEnded(log: seq<Event>, e: Event)
    ensures SomeDeliveryEnded(log + [e]) <==> SomeDeliveryEnded(log) || (Delivers(e) && EndsRequest(e.answer))
  {
    hide EndsRequest;
    var more := log + [e];
    if SomeDeliveryEnded(log) {
      var j :| 0 <= j < |log| && Delivers(log[j]) && EndsRequest(log[j].answer);
      assert more[j] == log[j];
    } else if Delivers(e) && EndsRequest(e.answer) {
      assert more[|log|] == e;
    }
    if SomeDeliveryEnded(more) {
      var j :| 0 <= j < |more| && Delivers(more[j]) && EndsRequest(more[j].answer);
      if j < |log| {
        assert more[j] == log[j];
      }
    }
  }

  /** The log goes on meaning what its standing says, as long as no cycle answer comes after the end. */
  lemma MeaningKept(log: seq<Event>, e: Event)
    requires Meaningful(log)
    requires Judges(e) || Builds(e) || Delivers(e) ==> StandingOf(log) != Over
    requires Builds(e) ==> (StandingOf(log).Accepted? || StandingOf(log).Ready?) && StandingOf(log).cand == e.call.cand
    ensures Meaningful(log + [e])
  {
    hide LastAccepted, LastBuilt, SomeDeliveryEnded, StandingOf, EndsRequest, IsBuilt;
    OneMore(log, e);
    StillEnded(log, e);
    var now := StandingOf(log + [e]);
    if now.Accepted? || now.Ready? {
      StillAccepted(log, e, now.cand);
    }
    if now.Ready? {
      StillBuilt(log, e);
    }
  }

  lemma ArrivalKeeps(m: Machine, call: Call)
    requires Inv(m) && m.running.None? && Admits(m.state, call)
    ensures Inv(Next(m, Arrives(call)))
  {
    hide Meaningful, StandingOf;
    OneMore(m.log, Called(call));
    MeaningKept(m.log, Called(call));
  }

  lemma AnswerKeeps(m: Machine, a: Answer)
    requires Inv(m) && m.running.Some? && Fits(m.running.value, a)
    ensures Inv(Next(m, Answers(a)))
  {
    hide Meaningful, StandingOf, EndsRequest, IsBuilt;
    OneMore(m.log, Returned(m.running.value, a));
    MeaningKept(m.log, Returned(m.running.value, a));
  }

  lemma {:induction false} RunKeeps(steps: seq<Step>)
    ensures Inv(RunOf(steps))
  {
    hide Inv, Admits, Fits;
    if steps != [] {
      var m, step := RunOf(steps[..|steps| - 1]), steps[|steps| - 1];
      RunKeeps(steps[..|steps| - 1]);
      if step.Arrives? {
        if m.running.None? && Admits(m.state, step.call) {
          ArrivalKeeps(m, step.call);
        }
      } else if m.running.Some? && Fits(m.running.value, step.answer) {
        AnswerKeeps(m, step.answer);
      }
    } else {
      FreshIsFine();
    }
  }

  lemma FreshIsFine()
    ensures Inv(FRESH)
  {
  }

  lemma ArrivalIsInOrder(m: Machine, call: Call)
    requires Inv(m) && m.running.None? && Admits(m.state, call)
    ensures InOrder(m.log + [Called(call)], |m.log|)
  {
    hide LastAccepted, LastBuilt, SomeDeliveryEnded, StandingOf;
    OneMore(m.log, Called(call));
  }

  /**
   However calls arrive and overlap, and whatever the payload answers: a body is
   prepared only for the candidate the last judgement accepted, delivered only
   right after a successful build, nothing of the attempt cycle runs once a
   delivery has ended the request, and nothing but the unordered calls, not even a
   second finalization, runs once usage was finalized.
   */
  lemma {:induction false} CallsReachThePayloadInOrder(steps: seq<Step>, i: nat)
    requires i < |RunOf(steps).log|
    ensures InOrder(RunOf(steps).log, i)
  {
    var m, step := RunOf(steps[..|steps| - 1]), steps[|steps| - 1];
    var log := RunOf(steps).log;
    if i < |m.log| {
      CallsReachThePayloadInOrder(steps[..|steps| - 1], i);
      assert log[..i] == m.log[..i] && log[i] == m.log[i];
    } else if step.Arrives? {
      RunKeeps(steps[..|steps| - 1]);
      ArrivalIsInOrder(m, step.call);
    }
  }

  /** Once a Deliver has returned with the response committed, no candidate is tried, prepared for, or delivered again. */
  lemma NoSecondCandidateAfterCommitment(steps: seq<Step>, i: nat, j: nat)
    requires i < j < |RunOf(steps).log|
    requires (var e := RunOf(steps).log[i];
              Delivers(e) && e.answer.client.Some? && e.answer.client.value.committed)
    ensures RunOf(steps).log[j].Called? ==> !InCycle(RunOf(steps).log[j].call)
  {
    var log := RunOf(steps).log;
    CallsReachThePayloadInOrder(steps, j);
    assert log[..j][i] == log[i];
    ResponseWins(log[i].answer.client.value, log[i].answer.report);
    assert EndsRequest(log[i].answer);
  }

  lemma UsageIsFinalizedAtMostOnce(steps: seq<Step>, i: nat, j: nat)
    requires i < j < |RunOf(steps).log|
    requires RunOf(steps).log[i] == Called(FinalizeUsage)
    ensures RunOf(steps).log[j] != Called(FinalizeUsage)
  {
    var log := RunOf(steps).log;
    CallsReachThePayloadInOrder(steps, j);
    assert log[..j][i] == log[i];
  }
}
