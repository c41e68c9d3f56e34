/**
 Reporting during an exchange and the failure-rewriter chain
 (internal/gateway/extension.go): what capabilities say about a failed dispatch, and
 which repaired body, if any, is re-sent for it. A rewriter is a function of the
 body it is handed.
 */
module Rewriters {
  import opened Wrappers
  import opened Decision
  import opened DecisionFolds
  import opened Effects

  // ----- The sink -----

  datatype Entry = Entry(attempt: nat, candidate: nat, provider: nat, reporter: string, fact: Fact)

  class Timeline {
    var entries: seq<Entry>

    constructor ()
      ensures entries == []
    {
      entries := [];
    }
  }

  /** A fact under the name it is filed under: its own, or the sink's. */
  function Attributed(f: Fact, reporter: string): Fact {
    if f.reporter == "" then f.(reporter := reporter) else f
  }

  function Stamped(facts: seq<Fact>, reporter: string): seq<Fact> {
    seq(|facts|, i requires 0 <= i < |facts| => Attributed(facts[i], reporter))
  }

  class ExchangeSink {
    const timeline: Timeline
    const reporter: string
    const attempt: nat
    const candidate: nat
    const provider: nat
    var batches: seq<seq<Fact>>

    constructor (timeline: Timeline, reporter: string, attempt: nat, candidate: nat, provider: nat)
      ensures this.timeline == timeline && this.reporter == reporter
      ensures this.attempt == attempt && this.candidate == candidate && this.provider == provider
      ensures batches == []
    {
      this.timeline, this.reporter, this.attempt, this.candidate, this.provider := timeline, reporter, attempt, candidate, provider;
      batches := [];
    }

    function Entries(facts: seq<Fact>): seq<Entry> {
      seq(|facts|, i requires 0 <= i < |facts| =>
        var f := Attributed(facts[i], reporter);
        Entry(attempt, candidate, provider, f.reporter, f))
    }

    method Report(facts: seq<Fact>)
      modifies this`batches, timeline
      ensures batches == if facts == [] then old(batches) else old(batches) + [Stamped(facts, reporter)]
      ensures timeline.entries == old(timeline.entries) + Entries(facts)
    {
      if |facts| == 0 {
        return;
      }
      var batch: seq<Fact> := [];
      for i := 0 to |facts|
        invariant batch == Stamped(facts[..i], reporter)
        invariant timeline.entries == old(timeline.entries) + Entries(facts[..i])
        invariant batches == old(batches)
      {
        var f := Attributed(facts[i], reporter);
        batch := batch + [f];
        timeline.entries := timeline.entries + [Entry(attempt, candidate, provider, f.reporter, f)];
        assert Stamped(facts[..i + 1], reporter) == Stamped(facts[..i], reporter) + [f];
        assert Entries(facts[..i + 1]) == Entries(facts[..i]) + [Entry(attempt, candidate, provider, f.reporter, f)];
      }
      assert facts[..|facts|] == facts;
      batches := batches + [batch];
    }

    /** Everything reported through this sink, folded: the value is the one that what was said resolves to. */
    method Resolve() returns (out: Resolved)
      ensures out == FoldBatches(batches)
      ensures Resolves(out, SaidIn(Flat(batches)))
    {
      out := ZERO;
      for i := 0 to |batches|
        invariant out == FoldBatches(batches[..i])
      {
        assert batches[..i + 1][..i] == batches[..i];
        var verdict := ResolveBatch(batches[i]);
        out := Combine(out, verdict);
      }
      assert batches[..|batches|] == batches;
      FoldBatchesResolves(batches);
    }

    /** A sink with the same provenance and timeline, and none of the reports. */
    method ForObserver(name: string) returns (sink: ExchangeSink)
      ensures fresh(sink) && sink.timeline == timeline && sink.reporter == name && sink.batches == []
      ensures sink.attempt == attempt && sink.candidate == candidate && sink.provider == provider
    {
      sink := new ExchangeSink(timeline, name, attempt, candidate, provider);
    }
  }

  // ----- The chain -----

  datatype Answer = Answer(failed: bool, body: Option<Bytes>, reports: seq<seq<Fact>>)
  datatype Rewriter = Rewriter(name: string, answer: Bytes -> Answer)

  datatype State = State(current: Bytes, accepted: bool, resolved: Resolved)

  /** An invocation is taken up only when it changed the body and reported the repair verdict for it. */
  predicate Accepted(a: Answer, current: Bytes) {
    && !a.failed && a.body.Some? && a.body.value != current
    && FoldBatches(a.reports).row.loop == LOOP_RETRY_SAME
  }

  function After(st: State, r: Rewriter): State {
    var a := r.answer(st.current);
    if Accepted(a, st.current) then State(a.body.value, true, Join(st.resolved, FoldBatches(a.reports))) else st
  }

  function Chain(st: State, rewriters: seq<Rewriter>): State
    decreases |rewriters|
  {
    if rewriters == [] then st else Chain(After(st, rewriters[0]), rewriters[1..])
  }

  function Start(body: Bytes): State {
    State(body, false, ZERO)
  }

  /** The body to re-send, if any. */
  function Repaired(body: Bytes, st: State): Option<Bytes> {
    if !st.accepted || st.current == body then None else Some(st.current)
  }

  /** The reports that reach the timeline, acted on or not. */
  function Filed(sink: ExchangeSink, name: string, reports: seq<seq<Fact>>): seq<Entry>
  {
    if reports == [] then []
    else
      Filed(sink, name, reports[..|reports| - 1])
      + seq(|reports[|reports| - 1]|, i requires 0 <= i < |reports[|reports| - 1]| =>
          var f := Attributed(reports[|reports| - 1][i], name);
          Entry(sink.attempt, sink.candidate, sink.provider, f.reporter, f))
  }

  function FiledByChain(sink: ExchangeSink, st: State, rewriters: seq<Rewriter>): seq<Entry>
    decreases |rewriters|
  {
    if rewriters == [] then []
    else
      Filed(sink, rewriters[0].name, rewriters[0].answer(st.current).reports)
      + FiledByChain(sink, After(st, rewriters[0]), rewriters[1..])
  }

  function NonEmpty(batches: seq<seq<Fact>>, name: string): seq<seq<Fact>> {
    if batches == [] then []
    else
      var last := batches[|batches| - 1];
      NonEmpty(batches[..|batches| - 1], name) + if last == [] then [] else [Stamped(last, name)]
  }

  /** One rewriter's Report calls, through a sink of its own. */
  method FileReports(base: ExchangeSink, name: string, reports: seq<seq<Fact>>) returns (sink: ExchangeSink)
    modifies base.timeline
    ensures fresh(sink) && sink.timeline == base.timeline && sink.batches == NonEmpty(reports, name)
    ensures base.timeline.entries == old(base.timeline.entries) + Filed(base, name, reports)
  {
    sink := base.ForObserver(name);
    for i := 0 to |reports|
      invariant sink.batches == NonEmpty(reports[..i], name)
      invariant base.timeline.entries == old(base.timeline.entries) + Filed(base, name, reports[..i])
    {
      assert reports[..i + 1][..i] == reports[..i];
      sink.Report(reports[i]);
      assert sink.Entries(reports[i]) == seq(|reports[i]|, j requires 0 <= j < |reports[i]| =>
        var f := Attributed(reports[i][j], name);
        Entry(base.attempt, base.candidate, base.provider, f.reporter, f));
    }
    assert reports[..|reports|] == reports;
  }

  /** Who reported, and reports of nothing, do not matter to a fold. */
  lemma {:induction false} StampingSaysTheSame(batches: seq<seq<Fact>>, name: string)
    ensures Words(Flat(NonEmpty(batches, name))) == Words(Flat(batches))
  {
    if batches != [] {
      var n := |batches| - 1;
      StampingSaysTheSame(batches[..n], name);
      StampedWords(batches[n], name);
      WordsOfConcat(Flat(batches[..n]), batches[n]);
      if batches[n] != [] {
        WordsOfConcat(Flat(NonEmpty(batches[..n], name)), Stamped(batches[n], name));
        FlatOneMore(NonEmpty(batches[..n], name), Stamped(batches[n], name));
      } else {
        assert NonEmpty(batches, name) == NonEmpty(batches[..n], name);
        assert Words([]) == {};
      }
    }
  }

  lemma StampedWords(facts: seq<Fact>, name: string)
    ensures Words(Stamped(facts, name)) == Words(facts)
  {
    forall w | w in Words(facts) ensures w in Words(Stamped(facts, name)) {
      var i :| 0 <= i < |facts| && w == Word(facts[i].kind, facts[i].reason, facts[i].detail);
      assert Stamped(facts, name)[i] in Stamped(facts, name);
    }
  }

  lemma WordsOfConcat(a: seq<Fact>, b: seq<Fact>)
    ensures Words(a + b) == Words(a) + Words(b)
  {
  }

  lemma FlatOneMore(batches: seq<seq<Fact>>, b: seq<Fact>)
    ensures Flat(batches + [b]) == Flat(batches) + b
  {
    assert (batches + [b])[..|batches|] == batches;
  }

  /** Run every rewriter over one failed dispatch: the body to re-send, if any, and the verdict of what was taken up. */
  method RewriteAfterFailure(base: ExchangeSink, rewriters: seq<Rewriter>, body: Bytes)
    returns (out: Option<Bytes>, resolved: Resolved)
    modifies base.timeline
    ensures out == Repaired(body, Chain(Start(body), rewriters))
    ensures resolved == Chain(Start(body), rewriters).resolved
    ensures base.timeline.entries == old(base.timeline.entries) + FiledByChain(base, Start(body), rewriters)
  {
    resolved := ZERO;
    if |rewriters| == 0 {
      return None, resolved;
    }
    var current, accepted := body, false;
    for i := 0 to |rewriters|
      invariant Chain(Start(body), rewriters) == Chain(State(current, accepted, resolved), rewriters[i..])
      invariant base.timeline.entries + FiledByChain(base, State(current, accepted, resolved), rewriters[i..])
                == old(base.timeline.entries) + FiledByChain(base, Start(body), rewriters)
    {
      var r := rewriters[i];
      assert rewriters[i..][0] == r && rewriters[i..][1..] == rewriters[i + 1..];
      ghost var st := State(current, accepted, resolved);
      ghost var before := base.timeline.entries;
      var answer := r.answer(current);
      var sink := FileReports(base, r.name, answer.reports);
      assert base.timeline.entries + FiledByChain(base, After(st, r), rewriters[i + 1..])
          == before + FiledByChain(base, st, rewriters[i..]);
      if answer.failed {
        continue;
      }
      if answer.body.None? || answer.body.value == current {
        continue;
      }
      var verdict := sink.Resolve();
      StampingSaysTheSame(answer.reports, r.name);
      OnlyTheWordsMatter(sink.batches, answer.reports);
      if verdict.row.loop != LOOP_RETRY_SAME {
        continue;
      }
      resolved := Combine(resolved, verdict);
      current, accepted := answer.body.value, true;
    }
    if !accepted || current == body {
      return None, resolved;
    }
    return Some(current), resolved;
  }

  // ----- What the chain keeps -----

  /** The reports of the invocations taken up. */
  function TakenUp(st: State, rewriters: seq<Rewriter>): seq<seq<Fact>>
    decreases |rewriters|
  {
    if rewriters == [] then []
    else
      var a := rewriters[0].answer(st.current);
      (if Accepted(a, st.current) then a.reports else []) + TakenUp(After(st, rewriters[0]), rewriters[1..])
  }

  lemma {:induction false} FlatOfConcat(a: seq<seq<Fact>>, b: seq<seq<Fact>>)
    ensures Flat(a + b) == Flat(a) + Flat(b)
  {
    hide Flat;
    if b == [] {
      assert a + b == a && Flat([]) == [] by { FlatOfNothing(); }
    } else {
      var init, last := b[..|b| - 1], b[|b| - 1];
      FlatOfConcat(a, init);
      assert a + b == (a + init) + [last] && b == init + [last];
      FlatOneMore(a + init, last);
      FlatOneMore(init, last);
    }
  }

  lemma FlatOfNothing()
    ensures Flat([]) == []
  {
  }

  lemma {:induction false} ChainResolves(st: State, rewriters: seq<Rewriter>, said: set<Resolved>)
    requires Resolves(st.resolved, said) && ZERO in said
    ensures Resolves(Chain(st, rewriters).resolved, said + SaidIn(Flat(TakenUp(st, rewriters))))
    decreases |rewriters|
  {
    hide Resolves, Join, Accepted;
    if rewriters == [] {
      assert said + SaidIn(Flat(TakenUp(st, rewriters))) == said;
    } else {
      var a, next := rewriters[0].answer(st.current), After(st, rewriters[0]);
      var rest := TakenUp(next, rewriters[1..]);
      if Accepted(a, st.current) {
        FoldBatchesResolves(a.reports);
        JoinResolvesTheUnion(st.resolved, said, FoldBatches(a.reports), SaidIn(Flat(a.reports)));
        ChainResolves(next, rewriters[1..], said + SaidIn(Flat(a.reports)));
        FlatOfConcat(a.reports, rest);
        SaidOfConcat(Flat(a.reports), Flat(rest));
        assert said + SaidIn(Flat(a.reports)) + SaidIn(Flat(rest)) == said + SaidIn(Flat(a.reports) + Flat(rest));
      } else {
        ChainResolves(next, rewriters[1..], said);
        assert [] + rest == rest;
      }
    }
  }

  lemma SaidOfConcat(a: seq<Fact>, b: seq<Fact>)
    ensures SaidIn(a + b) == SaidIn(a) + SaidIn(b)
  {
  }

  /** The chain's verdict is what the accepted invocations said, and nothing an abstaining one said. */
  lemma VerdictIsOfTheAccepted(rewriters: seq<Rewriter>, body: Bytes)
    ensures Chain(Start(body), rewriters).resolved == FoldBatches(TakenUp(Start(body), rewriters))
  {
    hide *;
    var taken := TakenUp(Start(body), rewriters);
    ZeroResolvesNothing();
    assert Start(body).resolved == ZERO by {
      StartIsUnresolved(body);
    }
    ChainResolves(Start(body), rewriters, {ZERO});
    FoldBatchesResolves(taken);
    ZeroIsAlwaysSaid(Flat(taken));
    assert {ZERO} + SaidIn(Flat(taken)) == SaidIn(Flat(taken));
    ResolutionIsUnique(Chain(Start(body), rewriters).resolved, FoldBatches(taken), SaidIn(Flat(taken)));
  }

  lemma StartIsUnresolved(body: Bytes)
    ensures Start(body).resolved == ZERO
  {
  }

  lemma ZeroIsAlwaysSaid(facts: seq<Fact>)
    ensures ZERO in SaidIn(facts)
  {
  }

  lemma ZeroResolvesNothing()
    ensures Resolves(ZERO, {ZERO})
  {
    SinglesAreSane();
    OneResolvesItself(ZERO);
  }

  lemma {:induction false} ChainOnlyRetries(st: State, rewriters: seq<Rewriter>)
    requires st.resolved.row.loop == if st.accepted then LOOP_RETRY_SAME else LOOP_NONE
    ensures (var end := Chain(st, rewriters);
             end.resolved.row.loop == if end.accepted then LOOP_RETRY_SAME else LOOP_NONE)
    decreases |rewriters|
  {
    if rewriters != [] {
      ChainOnlyRetries(After(st, rewriters[0]), rewriters[1..]);
    }
  }

  /** Rewriters can steer the relay to a retry of the same candidate or not at all, and a body comes only with that verdict. */
  lemma RewritersOnlyRetry(rewriters: seq<Rewriter>, body: Bytes)
    ensures (var end := Chain(Start(body), rewriters);
             && (end.resolved.row.loop == LOOP_NONE || end.resolved.row.loop == LOOP_RETRY_SAME)
             && (end.resolved.row.loop == LOOP_NONE ==> end.current == body && end.resolved == ZERO)
             && (Repaired(body, end).Some? <==> end.resolved.row.loop == LOOP_RETRY_SAME && end.current != body)
             && (Repaired(body, end).Some? ==> Repaired(body, end).value != body))
  {
    ChainOnlyRetries(Start(body), rewriters);
    UnacceptedIsUntouched(Start(body), rewriters);
  }

  lemma {:induction false} UnacceptedIsUntouched(st: State, rewriters: seq<Rewriter>)
    ensures st.accepted ==> Chain(st, rewriters).accepted
    ensures !Chain(st, rewriters).accepted ==> Chain(st, rewriters) == st
    decreases |rewriters|
  {
    if rewriters != [] {
      UnacceptedIsUntouched(After(st, rewriters[0]), rewriters[1..]);
    }
  }

  /** The rewriters that were not abstaining when their turn came. */
  function Active(st: State, rewriters: seq<Rewriter>): seq<Rewriter>
    decreases |rewriters|
  {
    if rewriters == [] then []
    else
      (if Accepted(rewriters[0].answer(st.current), st.current) then [rewriters[0]] else [])
      + Active(After(st, rewriters[0]), rewriters[1..])
  }

  /** Deleting every abstaining rewriter changes neither the body nor the verdict. */
  lemma {:induction false} AbstainersLeaveNoTrace(st: State, rewriters: seq<Rewriter>)
    ensures Chain(st, Active(st, rewriters)) == Chain(st, rewriters)
    decreases |rewriters|
  {
    if rewriters != [] {
      var next := After(st, rewriters[0]);
      var rest := Active(next, rewriters[1..]);
      AbstainersLeaveNoTrace(next, rewriters[1..]);
      if Accepted(rewriters[0].answer(st.current), st.current) {
        assert Active(st, rewriters) == [rewriters[0]] + rest;
        assert ([rewriters[0]] + rest)[1..] == rest;
      } else {
        assert Active(st, rewriters) == rest;
      }
    }
  }

  // ----- What is taken up -----

  /**
   What it takes, read off the answer and the kinds reported: the rewriter did not
   fail, gave a body other than the one it was handed, and reported the repair and
   nothing that would move the chain further than a retry.
   */
  predicate Repairs(a: Answer, current: Bytes) {
    && !a.failed && a.body.Some? && a.body.value != current
    && Reported(a.reports, {PAYLOAD_REPAIRED_RETRY_SAME})
    && !Reported(a.reports, COMMITS) && !Reported(a.reports, TERMINATES)
    && !Reported(a.reports, ABANDONS) && !Reported(a.reports, ROTATES)
  }

  lemma {:induction false} ChainOfConcat(st: State, a: seq<Rewriter>, b: seq<Rewriter>)
    ensures Chain(st, a + b) == Chain(Chain(st, a), b)
    decreases |a|
  {
    hide After;
    if a == [] {
      assert a + b == b;
    } else {
      assert (a + b)[0] == a[0] && (a + b)[1..] == a[1..] + b;
      ChainOfConcat(After(st, a[0]), a[1..], b);
    }
  }

  /** The body each rewriter is handed, and the one after it: a repair is handed on to the next, anything else changes nothing. */
  lemma RepairIsTakenUpExactlyWhen(rewriters: seq<Rewriter>, body: Bytes, i: nat)
    requires i < |rewriters|
    ensures (var before, after := Chain(Start(body), rewriters[..i]), Chain(Start(body), rewriters[..i + 1]);
             var a := rewriters[i].answer(before.current);
             && (Repairs(a, before.current) ==> after.accepted && after.current == a.body.value)
             && (!Repairs(a, before.current) ==> after == before))
  {
    hide FoldBatches, Reported, Join;
    var before := Chain(Start(body), rewriters[..i]);
    var a := rewriters[i].answer(before.current);
    assert rewriters[..i + 1] == rewriters[..i] + [rewriters[i]];
    ChainOfConcat(Start(body), rewriters[..i], [rewriters[i]]);
    OneRewriter(before, rewriters[i]);
    ChainGoesExactlyWhere(a.reports);
  }

  lemma OneRewriter(st: State, r: Rewriter)
    ensures Chain(st, [r]) == After(st, r)
  {
    hide After;
    assert [r][1..] == [];
    assert Chain(After(st, r), []) == After(st, r);
  }

  /** The relay is handed a body exactly when some repair was taken up and the last one differs from what was dispatched. */
  lemma LastRepairIsSent(rewriters: seq<Rewriter>, body: Bytes) returns (last: nat)
    requires Repaired(body, Chain(Start(body), rewriters)).Some?
    ensures last < |rewriters|
    ensures (var before := Chain(Start(body), rewriters[..last]);
             var a := rewriters[last].answer(before.current);
             Repairs(a, before.current) && Repaired(body, Chain(Start(body), rewriters)) == a.body)
    ensures forall j :: last < j < |rewriters| ==>
              !Repairs(rewriters[j].answer(Chain(Start(body), rewriters[..j]).current), Chain(Start(body), rewriters[..j]).current)
  {
    hide Chain, Repairs;
    assert rewriters[..|rewriters|] == rewriters;
    NothingChained(body, rewriters);
    assert rewriters != [];
    last := |rewriters| - 1;
    while !Repairs(rewriters[last].answer(Chain(Start(body), rewriters[..last]).current), Chain(Start(body), rewriters[..last]).current)
      invariant 0 <= last < |rewriters|
      invariant Chain(Start(body), rewriters[..last + 1]) == Chain(Start(body), rewriters)
      invariant forall j :: last < j < |rewriters| ==>
                  !Repairs(rewriters[j].answer(Chain(Start(body), rewriters[..j]).current), Chain(Start(body), rewriters[..j]).current)
      decreases last
    {
      RepairIsTakenUpExactlyWhen(rewriters, body, last);
      assert last > 0 && rewriters[..last - 1 + 1] == rewriters[..last];
      last := last - 1;
    }
    RepairIsTakenUpExactlyWhen(rewriters, body, last);
    assert Repairs(rewriters[last].answer(Chain(Start(body), rewriters[..last]).current), Chain(Start(body), rewriters[..last]).current)
        ==> rewriters[last].answer(Chain(Start(body), rewriters[..last]).current).body.Some? by {
      RepairHasABody(rewriters[last].answer(Chain(Start(body), rewriters[..last]).current), Chain(Start(body), rewriters[..last]).current);
    }
  }

  lemma NothingChained(body: Bytes, rewriters: seq<Rewriter>)
    ensures !Chain(Start(body), rewriters[..0]).accepted
    ensures Chain(Start(body), []) == Start(body)
  {
    assert rewriters[..0] == [];
  }

  lemma RepairHasABody(a: Answer, current: Bytes)
    ensures Repairs(a, current) ==> a.body.Some?
  {
  }
}
