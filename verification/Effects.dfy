/**
 What the kernel does about everything reported on an exchange, by the kinds of the
 facts alone: where the chain goes, what it costs, who is blamed, what is reversed.
 */
module Effects {
  import opened Decision
  import opened DecisionFolds

  // ----- The vocabulary, by effect -----

  const COMMITS: set<Kind> := {UPSTREAM_SUCCEEDED, UPSTREAM_STREAM_TRUNCATED, CLIENT_GONE, CLIENT_WRITE_FAILED}

  const TERMINATES: set<Kind> :=
    {QUOTA_EXHAUSTED, BALANCE_INSUFFICIENT, CALLER_RATE_LIMITED, PRICING_UNAVAILABLE_TERMINAL, UPSTREAM_CLIENT_ERROR,
     REQUEST_BUDGET_EXHAUSTED, INGRESS_REWRITE_FAILED}

  const ABANDONS: set<Kind> :=
    {PRICING_UNAVAILABLE_SKIP, CANDIDATE_UNSUPPORTED, PAYLOAD_REFUSED, UPSTREAM_SERVER_ERROR, UPSTREAM_TRANSPORT_FAILURE,
     UPSTREAM_PAYLOAD_UNDECODABLE, EGRESS_REWRITE_FAILED}

  const ROTATES: set<Kind> := {UPSTREAM_AUTH_REJECTED, UPSTREAM_RATE_LIMITED, KEY_UNUSABLE}

  /** Reports of a request that reached an upstream. */
  const DISPATCHED: set<Kind> :=
    {PAYLOAD_REFUSED, PAYLOAD_REPAIRED_RETRY_SAME, UPSTREAM_AUTH_REJECTED, UPSTREAM_RATE_LIMITED, UPSTREAM_SERVER_ERROR,
     UPSTREAM_CLIENT_ERROR, UPSTREAM_TRANSPORT_FAILURE, UPSTREAM_PAYLOAD_UNDECODABLE, UPSTREAM_SUCCEEDED}

  /** Candidates given up before anything was sent. */
  const PROBED: set<Kind> := {PRICING_UNAVAILABLE_SKIP, CANDIDATE_UNSUPPORTED, EGRESS_REWRITE_FAILED}

  const FAULTS: set<Kind> := {UPSTREAM_SERVER_ERROR, UPSTREAM_TRANSPORT_FAILURE, UPSTREAM_PAYLOAD_UNDECODABLE}
  const STRAINS: set<Kind> := {UPSTREAM_RATE_LIMITED, UPSTREAM_STREAM_TRUNCATED}

  const REVERSES: set<Kind> :=
    {QUOTA_EXHAUSTED, BALANCE_INSUFFICIENT, PRICING_UNAVAILABLE_TERMINAL, REQUEST_BUDGET_EXHAUSTED, INGRESS_REWRITE_FAILED}

  /** Some fact reported is of one of these kinds. */
  predicate Reported(batches: seq<seq<Fact>>, kinds: set<Kind>) {
    exists f :: f in Flat(batches) && f.kind in kinds
  }

  // ----- The table -----

  lemma LoopOf(k: Kind)
    ensures For(k).loop == LOOP_COMMITTED <==> k in COMMITS
    ensures For(k).loop == LOOP_TERMINATE <==> k in TERMINATES
    ensures For(k).loop == LOOP_NEXT_CANDIDATE <==> k in ABANDONS
    ensures For(k).loop == LOOP_ROTATE_KEY <==> k in ROTATES
    ensures For(k).loop == LOOP_RETRY_SAME <==> k == PAYLOAD_REPAIRED_RETRY_SAME
    ensures For(k).loop <= LOOP_COMMITTED && For(k).loop != LOOP_CONTINUE
  {
  }

  lemma CostOf(k: Kind)
    ensures For(k).budget == BUDGET_ATTEMPT <==> k in DISPATCHED
    ensures For(k).budget == BUDGET_PROBE <==> k in PROBED
    ensures For(k).budget <= BUDGET_ATTEMPT
  {
  }

  lemma BlameOf(k: Kind)
    ensures For(k).circuit == CIRCUIT_PENALIZE <==> k in FAULTS
    ensures For(k).circuit == CIRCUIT_PENALIZE_SOFT <==> k in STRAINS
    ensures For(k).circuit == CIRCUIT_RESET <==> k == UPSTREAM_SUCCEEDED
    ensures For(k).circuit <= CIRCUIT_PENALIZE
    ensures For(k).settle == SETTLE_REVERSE_ALL <==> k in REVERSES
    ensures For(k).settle <= SETTLE_REVERSE_ALL
  {
  }

  /** A status code is given exactly where it is asked for, and words are kept for later only where the chain goes on. */
  lemma StatusFieldsOnlyWhereMeant(k: Kind)
    ensures For(k).status == Fixed <==> For(k).code != 0
    ensures For(k).status != Fixed ==> For(k).errType == ""
    ensures For(k).sticky ==> For(k).status != NoStatus && (k in ROTATES || k in ABANDONS)
  {
  }

  // ----- The fold -----

  /** Each effect of what was reported is the strongest any one fact has. */
  lemma FoldTakesTheStrongest(batches: seq<seq<Fact>>)
    ensures (var row := FoldBatches(batches).row;
             && (forall f :: f in Flat(batches) ==>
                   && For(f.kind).loop <= row.loop && For(f.kind).circuit <= row.circuit
                   && For(f.kind).budget <= row.budget && For(f.kind).settle <= row.settle)
             && (row.loop == LOOP_NONE || exists f :: f in Flat(batches) && For(f.kind).loop == row.loop)
             && (row.circuit == CIRCUIT_NONE || exists f :: f in Flat(batches) && For(f.kind).circuit == row.circuit)
             && (row.budget == BUDGET_NONE || exists f :: f in Flat(batches) && For(f.kind).budget == row.budget)
             && (row.settle == SETTLE_NONE || exists f :: f in Flat(batches) && For(f.kind).settle == row.settle))
  {
    hide For, FoldBatches, Flat, Outranks, WellFormed;
    var r, said := FoldBatches(batches), SaidIn(Flat(batches));
    FoldBatchesResolves(batches);
    forall f | f in Flat(batches)
      ensures For(f.kind).loop <= r.row.loop && For(f.kind).circuit <= r.row.circuit
      ensures For(f.kind).budget <= r.row.budget && For(f.kind).settle <= r.row.settle
    {
      assert Single(f) in said;
    }
    forall x | x in said ensures x == ZERO || exists f :: f in Flat(batches) && x == Single(f) {
    }
  }

  /**
   Where the chain goes is decided by the kinds reported: committed if anything
   reached the caller, else ended if anything ends it, else on to the next
   candidate, else to another key, else to the same candidate with the repaired
   body, else nowhere.
   */
  lemma ChainGoesExactlyWhere(batches: seq<seq<Fact>>)
    ensures FoldBatches(batches).row.loop
         == if Reported(batches, COMMITS) then LOOP_COMMITTED
            else if Reported(batches, TERMINATES) then LOOP_TERMINATE
            else if Reported(batches, ABANDONS) then LOOP_NEXT_CANDIDATE
            else if Reported(batches, ROTATES) then LOOP_ROTATE_KEY
            else if Reported(batches, {PAYLOAD_REPAIRED_RETRY_SAME}) then LOOP_RETRY_SAME
            else LOOP_NONE
  {
    hide For, FoldBatches, Flat;
    FoldTakesTheStrongest(batches);
    forall f | f in Flat(batches) ensures LoopsAsListed(f.kind) {
      LoopOf(f.kind);
    }
  }

  predicate LoopsAsListed(k: Kind) {
    For(k).loop == if k in COMMITS then LOOP_COMMITTED
                   else if k in TERMINATES then LOOP_TERMINATE
                   else if k in ABANDONS then LOOP_NEXT_CANDIDATE
                   else if k in ROTATES then LOOP_ROTATE_KEY
                   else if k == PAYLOAD_REPAIRED_RETRY_SAME then LOOP_RETRY_SAME
                   else LOOP_NONE
  }

  /**
   No free moves: a retry of the same candidate costs an attempt and leaving a
   candidate costs at least a probe, whatever else was reported; a request that
   reached an upstream always costs an attempt.
   */
  lemma NoMoveIsFree(batches: seq<seq<Fact>>)
    ensures (var row := FoldBatches(batches).row;
             && (row.loop == LOOP_RETRY_SAME ==> row.budget == BUDGET_ATTEMPT)
             && (row.loop == LOOP_NEXT_CANDIDATE ==> row.budget >= BUDGET_PROBE)
             && (row.budget == BUDGET_ATTEMPT <==> Reported(batches, DISPATCHED))
             && (row.budget == BUDGET_PROBE <==> !Reported(batches, DISPATCHED) && Reported(batches, PROBED)))
  {
    hide For, FoldBatches, Flat;
    FoldTakesTheStrongest(batches);
    forall f | f in Flat(batches)
      ensures f.kind in DISPATCHED <==> For(f.kind).budget == BUDGET_ATTEMPT
      ensures f.kind in PROBED <==> For(f.kind).budget == BUDGET_PROBE
      ensures For(f.kind).budget <= BUDGET_ATTEMPT
      ensures For(f.kind).loop == LOOP_RETRY_SAME ==> For(f.kind).budget == BUDGET_ATTEMPT
      ensures For(f.kind).loop == LOOP_NEXT_CANDIDATE ==> For(f.kind).budget >= BUDGET_PROBE
    {
      LoopOf(f.kind);
      CostOf(f.kind);
    }
  }

  /** Who is blamed, and whether everything reserved is given back, by the kinds reported. */
  lemma BlameAndReversalExactlyWhen(batches: seq<seq<Fact>>)
    ensures FoldBatches(batches).row.circuit
         == if Reported(batches, FAULTS) then CIRCUIT_PENALIZE
            else if Reported(batches, STRAINS) then CIRCUIT_PENALIZE_SOFT
            else if Reported(batches, {UPSTREAM_SUCCEEDED}) then CIRCUIT_RESET
            else CIRCUIT_NONE
    ensures FoldBatches(batches).row.settle == SETTLE_REVERSE_ALL <==> Reported(batches, REVERSES)
  {
    hide For, FoldBatches, Flat;
    FoldTakesTheStrongest(batches);
    forall f | f in Flat(batches)
      ensures For(f.kind).circuit
           == if f.kind in FAULTS then CIRCUIT_PENALIZE else if f.kind in STRAINS then CIRCUIT_PENALIZE_SOFT
              else if f.kind == UPSTREAM_SUCCEEDED then CIRCUIT_RESET else CIRCUIT_NONE
      ensures For(f.kind).settle == SETTLE_REVERSE_ALL <==> f.kind in REVERSES
      ensures For(f.kind).settle <= SETTLE_REVERSE_ALL
    {
      BlameOf(f.kind);
    }
  }

  // ----- Whose words the caller gets -----

  /** Kinds that answer with a status of their own, or forward the upstream's. */
  const ANSWERS: set<Kind> :=
    {QUOTA_EXHAUSTED, BALANCE_INSUFFICIENT, CALLER_RATE_LIMITED, PRICING_UNAVAILABLE_SKIP, CANDIDATE_UNSUPPORTED,
     UPSTREAM_RATE_LIMITED, UPSTREAM_STREAM_TRUNCATED, CLIENT_GONE, CLIENT_WRITE_FAILED, REQUEST_BUDGET_EXHAUSTED,
     INGRESS_REWRITE_FAILED} + FORWARDS

  const FORWARDS: set<Kind> := {PAYLOAD_REFUSED, UPSTREAM_CLIENT_ERROR, UPSTREAM_SUCCEEDED}

  lemma StatusOf(k: Kind)
    ensures Strength(For(k).status) == if k in ANSWERS then 2 else if k == PRICING_UNAVAILABLE_TERMINAL then 1 else 0
    ensures For(k).status == FromUpstream <==> k in FORWARDS
    ensures For(k).status == Fixed <==> k in ANSWERS && k !in FORWARDS
  {
  }

  /** `k` is the lowest of these kinds that was reported. */
  predicate IsLowest(batches: seq<seq<Fact>>, kinds: set<Kind>, k: Kind) {
    && k in kinds && (exists f :: f in Flat(batches) && f.kind == k)
    && forall f :: f in Flat(batches) && f.kind in kinds ==> k <= f.kind
  }

  /**
   Who speaks to the caller: the lowest reported kind that answers for itself; only
   where none does, the one that defers to its peers; and where that was not
   reported either, nobody.
   */
  lemma VerdictIsTheLowestKinds(batches: seq<seq<Fact>>)
    ensures (var from := FoldBatches(batches).statusFrom;
             && (Reported(batches, ANSWERS) ==> IsLowest(batches, ANSWERS, from))
             && (!Reported(batches, ANSWERS) ==>
                   from == if Reported(batches, {PRICING_UNAVAILABLE_TERMINAL}) then PRICING_UNAVAILABLE_TERMINAL else NONE))
  {
    hide For, FoldBatches, Flat, Less, Bounds, Sane;
    var r, said := FoldBatches(batches), SaidIn(Flat(batches));
    FoldBatchesResolves(batches);
    VerdictIsOneFacts(batches);
    assert VerdictOf(r).from == r.statusFrom;
    StatusOf(NONE);
    forall f | f in Flat(batches)
      ensures !Outranks(VerdictOf(Single(f)), VerdictOf(r))
      ensures Strength(For(f.kind).status)
           == if f.kind in ANSWERS then 2 else if f.kind == PRICING_UNAVAILABLE_TERMINAL then 1 else 0
    {
      assert Single(f) in said;
      StatusOf(f.kind);
    }
    assert ZERO in said && !Outranks(VerdictOf(ZERO), VerdictOf(r));
  }

  /** The status shown: the speaker's own, the upstream's where it forwards that, and none where nobody answers. */
  lemma CallerIsShownExactly(batches: seq<seq<Fact>>, upstreamStatus: nat, upstreamErrType: string)
    ensures (var r := FoldBatches(batches);
             CallerFacing(r, upstreamStatus, upstreamErrType)
             == if r.statusFrom in FORWARDS then (upstreamStatus, upstreamErrType)
                else if r.statusFrom in ANSWERS then (For(r.statusFrom).code, For(r.statusFrom).errType)
                else (0, ""))
  {
    hide For, FoldBatches, Flat;
    VerdictIsOneFacts(batches);
    StatusOf(FoldBatches(batches).statusFrom);
    StatusOf(NONE);
    var v := VerdictOf(FoldBatches(batches));
    if v != VerdictOf(ZERO) {
      var f :| f in Flat(batches) && v == VerdictOf(Single(f));
    }
  }
}
