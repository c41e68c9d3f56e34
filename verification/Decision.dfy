/**
 The decision table and its fold (internal/decision/decision.go, internal/fact/fact.go):
 a reported fact names a row, and the rows of everything reported fold to one verdict.
 */
module Decision {
  import opened Wrappers

  // ----- The fact vocabulary -----

  type Kind = k: nat | k < 0x1_0000

  const NONE: Kind := 0
  const QUOTA_EXHAUSTED: Kind := 1
  const BALANCE_INSUFFICIENT: Kind := 2
  const CALLER_RATE_LIMITED: Kind := 3
  const PRICING_UNAVAILABLE_TERMINAL: Kind := 4
  const PRICING_UNAVAILABLE_SKIP: Kind := 5
  const CANDIDATE_UNSUPPORTED: Kind := 6
  const PAYLOAD_REFUSED: Kind := 7
  const PAYLOAD_REPAIRED_RETRY_SAME: Kind := 8
  const UPSTREAM_AUTH_REJECTED: Kind := 9
  const UPSTREAM_RATE_LIMITED: Kind := 10
  const UPSTREAM_SERVER_ERROR: Kind := 11
  const UPSTREAM_CLIENT_ERROR: Kind := 12
  const UPSTREAM_TRANSPORT_FAILURE: Kind := 13
  const UPSTREAM_PAYLOAD_UNDECODABLE: Kind := 14
  const UPSTREAM_SUCCEEDED: Kind := 15
  const UPSTREAM_STREAM_TRUNCATED: Kind := 16
  const CLIENT_GONE: Kind := 17
  const CLIENT_WRITE_FAILED: Kind := 18
  const KEY_UNUSABLE: Kind := 19
  const REQUEST_BUDGET_EXHAUSTED: Kind := 20
  const INGRESS_REWRITE_FAILED: Kind := 21
  const EGRESS_REWRITE_FAILED: Kind := 22
  const NUM_KINDS: nat := 23

  datatype Fact = Fact(kind: Kind, reporter: string, status: int, reason: string, detail: string)

  function KindName(k: Kind): string {
    if k == QUOTA_EXHAUSTED then "quota_exhausted"
    else if k == BALANCE_INSUFFICIENT then "balance_insufficient"
    else if k == CALLER_RATE_LIMITED then "caller_rate_limited"
    else if k == PRICING_UNAVAILABLE_TERMINAL then "pricing_unavailable_terminal"
    else if k == PRICING_UNAVAILABLE_SKIP then "pricing_unavailable_skip"
    else if k == CANDIDATE_UNSUPPORTED then "candidate_unsupported"
    else if k == PAYLOAD_REFUSED then "payload_refused"
    else if k == PAYLOAD_REPAIRED_RETRY_SAME then "payload_repaired_retry_same"
    else if k == UPSTREAM_AUTH_REJECTED then "upstream_auth_rejected"
    else if k == UPSTREAM_RATE_LIMITED then "upstream_rate_limited"
    else if k == UPSTREAM_SERVER_ERROR then "upstream_server_error"
    else if k == UPSTREAM_CLIENT_ERROR then "upstream_client_error"
    else if k == UPSTREAM_TRANSPORT_FAILURE then "upstream_transport_failure"
    else if k == UPSTREAM_PAYLOAD_UNDECODABLE then "upstream_payload_undecodable"
    else if k == UPSTREAM_SUCCEEDED then "upstream_succeeded"
    else if k == UPSTREAM_STREAM_TRUNCATED then "upstream_stream_truncated"
    else if k == CLIENT_GONE then "client_gone"
    else if k == CLIENT_WRITE_FAILED then "client_write_failed"
    else if k == KEY_UNUSABLE then "key_unusable"
    else if k == REQUEST_BUDGET_EXHAUSTED then "request_budget_exhausted"
    else if k == INGRESS_REWRITE_FAILED then "ingress_rewrite_failed"
    else if k == EGRESS_REWRITE_FAILED then "egress_rewrite_failed"
    else "none"
  }

  // ----- The effects, each ordered by strength -----

  const LOOP_NONE: nat := 0
  const LOOP_CONTINUE: nat := 1
  const LOOP_RETRY_SAME: nat := 2
  const LOOP_ROTATE_KEY: nat := 3
  const LOOP_NEXT_CANDIDATE: nat := 4
  const LOOP_TERMINATE: nat := 5
  const LOOP_COMMITTED: nat := 6

  datatype StatusPolicy = NoStatus | FromPeer | FromUpstream | Fixed

  const CIRCUIT_NONE: nat := 0
  const CIRCUIT_RESET: nat := 1
  const CIRCUIT_PENALIZE_SOFT: nat := 2
  const CIRCUIT_PENALIZE: nat := 3

  const BUDGET_NONE: nat := 0
  const BUDGET_PROBE: nat := 1
  const BUDGET_ATTEMPT: nat := 2

  const SETTLE_NONE: nat := 0
  const SETTLE_WITH_USAGE: nat := 1
  const SETTLE_SUPPRESS: nat := 2
  const SETTLE_REVERSE_ALL: nat := 3

  /** The status a verdict asks for; the type is meaningful with Fixed alone. `sticky` holds it for the terminal to quote. */
  datatype Row = Row(loop: nat, status: StatusPolicy, code: nat, errType: string, circuit: nat, budget: nat, sticky: bool,
                     settle: nat, defined: bool)

  const BLANK := Row(LOOP_NONE, NoStatus, 0, "", CIRCUIT_NONE, BUDGET_NONE, false, SETTLE_NONE, false)
  const WRITTEN := BLANK.(defined := true)

  /** The decision table; a Kind past its end reads as the blank row. */
  function For(k: Kind): Row {
    if k == NONE then WRITTEN
    else if k == QUOTA_EXHAUSTED then
      WRITTEN.(loop := LOOP_TERMINATE, status := Fixed, code := 429, errType := "insufficient_quota", settle := SETTLE_REVERSE_ALL)
    else if k == BALANCE_INSUFFICIENT then
      WRITTEN.(loop := LOOP_TERMINATE, status := Fixed, code := 402, errType := "insufficient_quota", settle := SETTLE_REVERSE_ALL)
    else if k == CALLER_RATE_LIMITED then
      WRITTEN.(loop := LOOP_TERMINATE, status := Fixed, code := 429, errType := "rate_limit_error")
    else if k == PRICING_UNAVAILABLE_TERMINAL then
      WRITTEN.(loop := LOOP_TERMINATE, status := FromPeer, settle := SETTLE_REVERSE_ALL)
    else if k == PRICING_UNAVAILABLE_SKIP then
      WRITTEN.(loop := LOOP_NEXT_CANDIDATE, status := Fixed, code := 503, errType := "service_unavailable",
               budget := BUDGET_PROBE, sticky := true)
    else if k == CANDIDATE_UNSUPPORTED then
      WRITTEN.(loop := LOOP_NEXT_CANDIDATE, status := Fixed, code := 400, errType := "invalid_request_error",
               budget := BUDGET_PROBE, sticky := true)
    else if k == PAYLOAD_REFUSED then
      WRITTEN.(loop := LOOP_NEXT_CANDIDATE, status := FromUpstream, budget := BUDGET_ATTEMPT, sticky := true)
    else if k == PAYLOAD_REPAIRED_RETRY_SAME then WRITTEN.(loop := LOOP_RETRY_SAME, budget := BUDGET_ATTEMPT)
    else if k == UPSTREAM_AUTH_REJECTED then WRITTEN.(loop := LOOP_ROTATE_KEY, budget := BUDGET_ATTEMPT)
    else if k == UPSTREAM_RATE_LIMITED then
      WRITTEN.(loop := LOOP_ROTATE_KEY, status := Fixed, code := 429, errType := "rate_limit_error",
               circuit := CIRCUIT_PENALIZE_SOFT, budget := BUDGET_ATTEMPT, sticky := true)
    else if k == UPSTREAM_SERVER_ERROR || k == UPSTREAM_TRANSPORT_FAILURE || k == UPSTREAM_PAYLOAD_UNDECODABLE then
      WRITTEN.(loop := LOOP_NEXT_CANDIDATE, circuit := CIRCUIT_PENALIZE, budget := BUDGET_ATTEMPT)
    else if k == UPSTREAM_CLIENT_ERROR then
      WRITTEN.(loop := LOOP_TERMINATE, status := FromUpstream, budget := BUDGET_ATTEMPT, settle := SETTLE_WITH_USAGE)
    else if k == UPSTREAM_SUCCEEDED then
      WRITTEN.(loop := LOOP_COMMITTED, status := FromUpstream, circuit := CIRCUIT_RESET, budget := BUDGET_ATTEMPT,
               settle := SETTLE_WITH_USAGE)
    else if k == UPSTREAM_STREAM_TRUNCATED then
      WRITTEN.(loop := LOOP_COMMITTED, status := Fixed, code := 200, circuit := CIRCUIT_PENALIZE_SOFT, settle := SETTLE_WITH_USAGE)
    else if k == CLIENT_GONE || k == CLIENT_WRITE_FAILED then
      WRITTEN.(loop := LOOP_COMMITTED, status := Fixed, code := 499, settle := SETTLE_WITH_USAGE)
    else if k == KEY_UNUSABLE then WRITTEN.(loop := LOOP_ROTATE_KEY)
    else if k == REQUEST_BUDGET_EXHAUSTED then
      WRITTEN.(loop := LOOP_TERMINATE, status := Fixed, code := 504, errType := "upstream_error", settle := SETTLE_REVERSE_ALL)
    else if k == INGRESS_REWRITE_FAILED then
      WRITTEN.(loop := LOOP_TERMINATE, status := Fixed, code := 500, errType := "server_error", settle := SETTLE_REVERSE_ALL)
    else if k == EGRESS_REWRITE_FAILED then WRITTEN.(loop := LOOP_NEXT_CANDIDATE, budget := BUDGET_PROBE)
    else BLANK
  }

  // ----- The fold -----

  datatype Resolved = Resolved(row: Row, statusFrom: Kind, loopFrom: Kind, detail: string, reason: string)

  /** The zero value every fold starts from. */
  const ZERO := Resolved(BLANK, NONE, NONE, "", "")

  function Single(f: Fact): Resolved {
    Resolved(For(f.kind), f.kind, f.kind, f.detail, f.reason)
  }

  /** Everything the caller is shown or the row persists, as one value. */
  datatype Verdict = Verdict(status: StatusPolicy, code: nat, errType: string, sticky: bool, from: Kind, reason: string,
                             detail: string)

  function VerdictOf(r: Resolved): Verdict {
    Verdict(r.row.status, r.row.code, r.row.errType, r.row.sticky, r.statusFrom, r.reason, r.detail)
  }

  /** A verdict whose payload is the row of the fact it names, as every folded value's is. */
  predicate WellFormed(v: Verdict) {
    var row := For(v.from);
    v.status == row.status && v.code == row.code && v.errType == row.errType && v.sticky == row.sticky
  }

  function Strength(p: StatusPolicy): nat {
    match p
    case NoStatus => 0
    case FromPeer => 1
    case _ => 2
  }

  /** The order of strings. */
  predicate Less(a: string, b: string) {
    b != [] && (a == [] || a[0] < b[0] || (a[0] == b[0] && Less(a[1..], b[1..])))
  }

  /** Whether `c`'s claim on the caller-facing verdict beats `h`'s. */
  predicate Outranks(c: Verdict, h: Verdict) {
    if Strength(c.status) != Strength(h.status) then Strength(c.status) > Strength(h.status)
    else if c.from != h.from then c.from < h.from
    else if c.reason != h.reason then Less(c.reason, h.reason)
    else Less(c.detail, h.detail)
  }

  /** Whether `c` supplies the loop effect rather than `h`: the stronger one, or the lower Kind between equals. */
  predicate Steers(c: Resolved, h: Resolved) {
    c.row.loop > h.row.loop || (c.row.loop == h.row.loop && c.loopFrom < h.loopFrom)
  }

  /**
   Two folded values as one: the loop effect with whoever supplied it, the strongest
   of each other effect, and one side's caller-facing verdict, whole.
   */
  function Join(a: Resolved, b: Resolved): Resolved {
    var loop := if Steers(b, a) then b else a;
    var v := if Outranks(VerdictOf(b), VerdictOf(a)) then VerdictOf(b) else VerdictOf(a);
    Resolved(
      Row(loop.row.loop, v.status, v.code, v.errType, Max(a.row.circuit, b.row.circuit), Max(a.row.budget, b.row.budget),
          v.sticky, Max(a.row.settle, b.row.settle), a.row.defined || b.row.defined),
      v.from, loop.loopFrom, v.detail, v.reason)
  }

  method Combine(a: Resolved, b: Resolved) returns (out: Resolved)
    ensures out == Join(a, b)
  {
    hide Outranks;
    var loop, loopFrom := a.row.loop, a.loopFrom;
    if b.row.loop > loop {
      loop, loopFrom := b.row.loop, b.loopFrom;
    } else if b.row.loop == loop && b.loopFrom < loopFrom {
      loopFrom := b.loopFrom;
    }
    var circuit, budget, settle := a.row.circuit, a.row.budget, a.row.settle;
    if b.row.circuit > circuit {
      circuit := b.row.circuit;
    }
    if b.row.budget > budget {
      budget := b.row.budget;
    }
    if b.row.settle > settle {
      settle := b.row.settle;
    }
    var v := VerdictOf(a);
    if Outranks(VerdictOf(b), VerdictOf(a)) {
      v := VerdictOf(b);
    }
    out := Resolved(
      Row(loop, v.status, v.code, v.errType, circuit, budget, v.sticky, settle, a.row.defined || b.row.defined),
      v.from, loopFrom, v.detail, v.reason);
  }

  /** The fold of one batch, from the zero value, first fact first. */
  function Fold(facts: seq<Fact>): Resolved {
    if facts == [] then ZERO else Join(Fold(facts[..|facts| - 1]), Single(facts[|facts| - 1]))
  }

  method ResolveBatch(facts: seq<Fact>) returns (out: Resolved)
    ensures out == Fold(facts)
  {
    out := ZERO;
    for i := 0 to |facts|
      invariant out == Fold(facts[..i])
    {
      assert facts[..i + 1][..i] == facts[..i];
      out := Combine(out, Single(facts[i]));
    }
    assert facts[..|facts|] == facts;
  }

  /** Batches fold into each other by the same rule. */
  function FoldBatches(batches: seq<seq<Fact>>): Resolved {
    if batches == [] then ZERO else Join(FoldBatches(batches[..|batches| - 1]), Fold(batches[|batches| - 1]))
  }

  // ----- Reading a resolved verdict -----

  /** The status and error type the caller is shown; a zero status is no opinion. */
  function CallerFacing(r: Resolved, upstreamStatus: nat, upstreamErrType: string): (nat, string) {
    match r.row.status
    case Fixed => (r.row.code, r.row.errType)
    case FromUpstream => (upstreamStatus, upstreamErrType)
    case _ => (0, "")
  }

  /** The code persisted for a verdict. */
  function FailReason(r: Resolved): string {
    if r.reason != "" then r.reason else KindName(r.statusFrom)
  }
}
