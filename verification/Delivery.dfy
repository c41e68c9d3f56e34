/**
 What a modality reports about getting a response to the caller, and what is left of
 that report once the response itself and the settlement have been consulted
 (internal/fact/delivery.go, internal/gateway/modality_order.go, internal/gateway/log.go).
 */
module Delivery {
  import opened Wrappers

  datatype Verdict = Unset | Settled | NextCandidate
  datatype Fault = Blameless | Client | Upstream | Gateway

  /** What an attempt reported as billable. */
  datatype Usage = Usage(prompt: nat, completion: nat, total: nat)

  datatype Delivery = Delivery(committed: bool, clientStatus: int, verdict: Verdict, billingStatus: int, complete: bool,
                               fault: Fault, usage: Option<Usage>, failReason: string)

  // ----- The constructors -----

  function Succeeded(status: int): Delivery {
    Delivery(true, status, Settled, status, true, Blameless, None, "")
  }

  function Truncated(clientStatus: int, billingStatus: int, at: Fault, failReason: string): Delivery {
    Delivery(true, clientStatus, Settled, billingStatus, false, at, None, failReason)
  }

  function Rejected(status: int, at: Fault, failReason: string): Delivery {
    Delivery(true, status, Settled, status, false, at, None, failReason)
  }

  function Undelivered(billingStatus: int, next: Verdict, at: Fault, failReason: string): Delivery {
    Delivery(false, 0, next, billingStatus, false, at, None, failReason)
  }

  function HandedOn(at: Fault, failReason: string): Delivery {
    Delivery(false, 0, NextCandidate, 0, false, at, None, failReason)
  }

  function WithUsage(d: Delivery, usage: Option<Usage>): Delivery {
    d.(usage := usage)
  }

  // ----- Coherence -----

  datatype Flaw =
    | VerdictIsUnset
    | NothingToSettleOn
    | CommittedButContinuing
    | CommittedWithoutStatus
    | StatusWithoutCommitment
    | CompleteWithoutCommitment
    | CompleteButBilledAsFailure
    | CompleteButBlamed
    | BilledButContinuing

  /** The first reason a delivery cannot describe anything that happened. */
  function Validate(d: Delivery): Option<Flaw> {
    if d.verdict == Unset then Some(VerdictIsUnset)
    else if d.verdict == Settled && d.billingStatus == 0 then Some(NothingToSettleOn)
    else if d.committed && d.verdict != Settled then Some(CommittedButContinuing)
    else if d.committed && d.clientStatus == 0 then Some(CommittedWithoutStatus)
    else if !d.committed && d.clientStatus != 0 then Some(StatusWithoutCommitment)
    else if d.complete && !d.committed then Some(CompleteWithoutCommitment)
    else if d.complete && d.billingStatus >= 400 then Some(CompleteButBilledAsFailure)
    else if d.complete && d.fault != Blameless then Some(CompleteButBlamed)
    else if d.verdict != Settled && d.billingStatus != 0 then Some(BilledButContinuing)
    else None
  }

  /** The shapes a delivery can really have. */
  predicate Coherent(d: Delivery) {
    if d.committed then
      && d.verdict == Settled && d.clientStatus != 0 && d.billingStatus != 0
      && (d.complete ==> d.billingStatus < 400 && d.fault == Blameless)
    else
      && d.clientStatus == 0 && !d.complete
      && ((d.verdict == Settled && d.billingStatus != 0) || (d.verdict == NextCandidate && d.billingStatus == 0))
  }

  /** The nine rules together admit exactly those shapes. */
  lemma RulesAdmitExactlyTheCoherent(d: Delivery)
    ensures Validate(d).None? <==> Coherent(d)
  {
  }

  /** Exactly when each constructor builds something coherent. */
  lemma ConstructorsAreCoherentWhen(client: int, billing: int, next: Verdict, at: Fault, reason: string)
    ensures Coherent(Succeeded(client)) <==> client != 0 && client < 400
    ensures Coherent(Truncated(client, billing, at, reason)) <==> client != 0 && billing != 0
    ensures Coherent(Rejected(client, at, reason)) <==> client != 0
    ensures Coherent(Undelivered(billing, next, at, reason))
            <==> (next == Settled && billing != 0) || (next == NextCandidate && billing == 0)
    ensures Coherent(HandedOn(at, reason))
  {
  }

  // ----- The response wins -----

  /** What the response to the caller records about itself. */
  datatype ClientResponse = ClientResponse(committed: bool, status: int)

  const CONTRADICTS := "delivery_contradicts_response"

  function Contradiction(substitute: Delivery, original: Delivery): Delivery {
    WithUsage(substitute, original.usage)
  }

  function Reconcile(client: Option<ClientResponse>, d: Delivery): Delivery {
    match client
    case None => d
    case Some(c) =>
      if c.committed && !d.committed then Contradiction(Truncated(c.status, 500, Gateway, CONTRADICTS), d)
      else if !c.committed && d.committed then Contradiction(Undelivered(500, Settled, Gateway, CONTRADICTS), d)
      else if c.committed && d.clientStatus != c.status then Contradiction(Truncated(c.status, 500, Gateway, CONTRADICTS), d)
      else d
  }

  const INVALID := "invalid_delivery"

  /** A delivery that cannot describe anything real is replaced by one that blames the gateway and ends the request. */
  function Checked(d: Delivery): Delivery {
    if Validate(d).Some? then Undelivered(500, Settled, Gateway, INVALID) else d
  }

  predicate Agrees(c: ClientResponse, d: Delivery) {
    c.committed == d.committed && (c.committed ==> d.clientStatus == c.status)
  }

  /** Reconciling makes the account agree with the response, keeps an agreeing one, and always keeps the usage. */
  lemma ResponseWins(c: ClientResponse, d: Delivery)
    ensures Agrees(c, Reconcile(Some(c), d)) && Reconcile(Some(c), d).usage == d.usage
    ensures Reconcile(Some(c), d) == d <==> Agrees(c, d)
    ensures !Agrees(c, d) ==> Reconcile(Some(c), d).verdict == Settled && Reconcile(Some(c), d).fault == Gateway
  {
  }

  /** Where the two contradict, the response stands and the request is settled as a gateway failure, billed 500 and incomplete. */
  lemma ContradictionIsTheGateways(c: ClientResponse, d: Delivery)
    requires !Agrees(c, d)
    ensures (var out := Reconcile(Some(c), d);
             && out.committed == c.committed && out.clientStatus == (if c.committed then c.status else 0)
             && out.verdict == Settled && out.billingStatus == 500 && !out.complete
             && out.fault == Gateway && out.failReason == CONTRADICTS && out.usage == d.usage)
  {
  }

  datatype AttemptResult = Ended | TryNextCandidate

  /** How far the chain may go, and whether an error is written to a caller nothing was written to. */
  function Settle(d: Delivery, written: bool): (AttemptResult, bool) {
    if d.verdict != Settled then (TryNextCandidate, false) else (Ended, d.failReason == INVALID && !written)
  }

  /** What settlement acts on. */
  function Final(c: ClientResponse, d: Delivery): Delivery {
    Checked(Reconcile(Some(c), d))
  }

  /**
   Whatever the modality reported, what settlement acts on is coherent; once the
   response is committed it ends the request; and a further candidate is tried
   exactly when nothing was committed and the report is a coherent hand-on.
   */
  lemma NothingFollowsACommittedResponse(c: ClientResponse, d: Delivery)
    ensures Coherent(Final(c, d))
    ensures c.committed ==> Final(c, d).verdict == Settled
    ensures Settle(Final(c, d), c.committed).0 == TryNextCandidate
            <==> !c.committed && !d.committed && d.verdict == NextCandidate && Coherent(d)
    ensures Settle(Final(c, d), c.committed).1
            <==> !c.committed && Final(c, d).verdict == Settled && (!Coherent(Reconcile(Some(c), d)) || Reconcile(Some(c), d).failReason == INVALID)
  {
    ResponseWins(c, d);
    RulesAdmitExactlyTheCoherent(Reconcile(Some(c), d));
    RulesAdmitExactlyTheCoherent(Final(c, d));
  }

  /**
   The substitute for an incoherent delivery says nothing was committed, so a
   committed response can end up recorded as undelivered, and its usage lost. The
   record still says committed exactly when the response has a status and the
   report, where it agrees with the response, is coherent.
   */
  lemma CommitmentIsRecordedExactlyWhen(c: ClientResponse, d: Delivery)
    requires c.committed
    ensures Final(c, d).committed <==> c.status != 0 && (Agrees(c, d) ==> Coherent(d))
    ensures Final(c, d).committed ==> Final(c, d).clientStatus == c.status && Final(c, d).usage == d.usage
    ensures !Final(c, d).committed ==> Final(c, d) == Undelivered(500, Settled, Gateway, INVALID)
  {
    ResponseWins(c, d);
    RulesAdmitExactlyTheCoherent(Reconcile(Some(c), d));
    RulesAdmitExactlyTheCoherent(d);
  }

  /** A concrete one: the response went out whole, and the report also blames the provider. */
  lemma CommittedButRecordedUndelivered(usage: Usage)
    ensures (var d := Delivery(true, 200, Settled, 200, true, Upstream, Some(usage), "");
             var final := Final(ClientResponse(true, 200), d);
             !final.committed && final.clientStatus == 0 && final.usage == None)
  {
  }
}
