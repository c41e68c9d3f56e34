/**
 The startup backfill (internal/agentturns/backfill.go): rounds under a cursor
 over the requests that lack an own batch, each replayed through the engine.
 */
module Backfill {
  import opened Wrappers
  import opened Json
  import opened Classify
  import opened Replay
  import opened Derive
  import opened Rows
  import opened TurnStore
  import opened Parity
  import opened SessionRuns
  import opened LostWrites

  const DEFAULT_BATCH_SIZE := 50

  /** request_logs by primary key: ids ascend from 1, and request ids are unique. */
  predicate IsLog(log: seq<LogRow>) {
    && (forall i :: 0 <= i < |log| ==> log[i].pk > 0)
    && (forall i, j :: 0 <= i < j < |log| ==> log[i].pk < log[j].pk && log[i].request != log[j].request)
  }

  /** The request has a non-pending row of its own range. */
  predicate Owned(table: seq<TurnRow>, request: string) {
    exists r :: r in table && r.request == request && r.eventType != Pending && r.seqNo < SUPPLEMENT_SEQ_BASE
  }

  predicate IsCandidate(table: seq<TurnRow>, row: LogRow, after: nat) {
    row.session.Some? && row.pk > after && !Owned(table, row.request)
  }

  /** The candidate query without its limit, ids ascending. */
  function Candidates(table: seq<TurnRow>, log: seq<LogRow>, after: nat): seq<LogRow> {
    if log == [] then []
    else
      var last := log[|log| - 1];
      Candidates(table, log[..|log| - 1], after) + if IsCandidate(table, last, after) then [last] else []
  }

  /** What can go wrong with one replayed request: a fault of the engine's write, or its body row cannot be read. */
  datatype Mishap = Engine(fault: Fault) | BodyUnread

  const NONE := Engine(NoFault)

  /** A request whose body row could not be read goes to the engine with nothing captured. */
  function Unread(row: LogRow): LogRow {
    row.(body := RequestBody(0, None), response := Capture("", false), streamPath := "")
  }

  /** What one replayed request does to the table, under whatever went wrong for it. */
  function Recorded(table: seq<TurnRow>, log: seq<LogRow>, row: LogRow, mishap: Mishap): seq<TurnRow> {
    if SessionOf(row) == "" then table
    else match mishap
      case Engine(NoFault) => AfterWrite(table, log, row)
      case Engine(StepFails) => WithPending(table, row)
      case Engine(EverythingFails) => table
      case BodyUnread => AfterWrite(table, log, Unread(row))
  }

  function MishapOf(faults: map<string, Mishap>, row: LogRow): Mishap {
    if row.request in faults then faults[row.request] else NONE
  }

  function Processed(table: seq<TurnRow>, log: seq<LogRow>, batch: seq<LogRow>, faults: map<string, Mishap>): seq<TurnRow> {
    if batch == [] then table
    else
      var last := batch[|batch| - 1];
      Recorded(Processed(table, log, batch[..|batch| - 1], faults), log, last, MishapOf(faults, last))
  }

  // ----- The candidate list -----

  lemma {:induction false} CandidatesMembers(table: seq<TurnRow>, log: seq<LogRow>, after: nat)
    ensures forall r :: r in Candidates(table, log, after) <==> r in log && IsCandidate(table, r, after)
  {
    hide IsCandidate;
    if log != [] {
      CandidatesMembers(table, log[..|log| - 1], after);
      assert log == log[..|log| - 1] + [log[|log| - 1]];
    }
  }

  lemma {:induction false} CandidatesAscend(table: seq<TurnRow>, log: seq<LogRow>, after: nat)
    requires IsLog(log)
    ensures var cs := Candidates(table, log, after);
            Ascends(cs) && |cs| <= |log|
  {
    hide IsCandidate;
    if log != [] {
      var init, last := log[..|log| - 1], log[|log| - 1];
      CandidatesAscend(table, init, after);
      CandidatesMembers(table, init, after);
      var cs := Candidates(table, init, after);
      forall i | 0 <= i < |cs| ensures cs[i].pk < last.pk {
        assert cs[i] in init;
      }
    }
  }

  lemma CandidatesAre(table: seq<TurnRow>, log: seq<LogRow>, after: nat)
    requires IsLog(log)
    ensures var cs := Candidates(table, log, after);
            && (forall r :: r in cs <==> r in log && IsCandidate(table, r, after))
            && Ascends(cs)
            && |cs| <= |log|
  {
    CandidatesMembers(table, log, after);
    CandidatesAscend(table, log, after);
  }

  predicate Ascends(rows: seq<LogRow>) {
    forall i, j :: 0 <= i < j < |rows| ==> rows[i].pk < rows[j].pk
  }

  lemma LastIsGreatest(a: seq<LogRow>, r: LogRow)
    requires Ascends(a) && r in a
    ensures r.pk <= a[|a| - 1].pk && (r.pk == a[|a| - 1].pk ==> r == a[|a| - 1])
    ensures r in a[..|a| - 1] <==> r != a[|a| - 1]
  {
    var i :| 0 <= i < |a| && a[i] == r;
    if i < |a| - 1 {
      assert a[..|a| - 1][i] == r;
    }
  }

  /** Two strictly ascending lists with the same members are equal. */
  lemma {:induction false} AscendingIsUnique(a: seq<LogRow>, b: seq<LogRow>)
    requires Ascends(a) && Ascends(b)
    requires forall r :: r in a <==> r in b
    ensures a == b
  {
    assert |a| > 0 ==> a[|a| - 1] in a;
    assert |b| > 0 ==> b[|b| - 1] in b;
    if a != [] {
      var x, y := a[|a| - 1], b[|b| - 1];
      LastIsGreatest(a, y);
      LastIsGreatest(b, x);
      var initA, initB := a[..|a| - 1], b[..|b| - 1];
      assert Ascends(initA) && Ascends(initB);
      hide Ascends;
      forall r ensures r in initA <==> r in initB {
        if r in initA || r in initB {
          InitIsIn(a, b, r);
        }
      }
      AscendingIsUnique(initA, initB);
      assert a == initA + [x] && b == initB + [x];
    }
  }

  lemma InitIsIn(a: seq<LogRow>, b: seq<LogRow>, r: LogRow)
    requires a != [] && b != [] && Ascends(a) && Ascends(b) && a[|a| - 1] == b[|b| - 1]
    requires forall x :: x in a <==> x in b
    requires r in a[..|a| - 1] || r in b[..|b| - 1]
    ensures r in a[..|a| - 1] && r in b[..|b| - 1]
  {
    assert r in a || r in b;
    LastIsGreatest(a, r);
    LastIsGreatest(b, r);
  }

  /** Moving the cursor past the first `k` candidates leaves the rest. */
  lemma CandidatesPastCursor(table: seq<TurnRow>, log: seq<LogRow>, after: nat, k: nat)
    requires IsLog(log) && 0 < k <= |Candidates(table, log, after)|
    ensures var cs := Candidates(table, log, after);
            && Candidates(table, log, cs[k - 1].pk) == cs[k..]
            && after < cs[k - 1].pk
  {
    hide Candidates;
    var cs := Candidates(table, log, after);
    var cursor := cs[k - 1].pk;
    CandidatesAre(table, log, after);
    CandidatesAre(table, log, cursor);
    assert cs[k - 1] in cs;
    forall r ensures r in Candidates(table, log, cursor) <==> r in cs[k..] {
      if r in cs {
        var i :| 0 <= i < |cs| && cs[i] == r;
        assert i >= k ==> cs[k..][i - k] == r;
      }
    }
    AscendingIsUnique(Candidates(table, log, cursor), cs[k..]);
  }

  /** What a replayed request adds under another request's id is a supplement. */
  lemma RecordedAddsElsewhere(table: seq<TurnRow>, log: seq<LogRow>, row: LogRow, mishap: Mishap, r: TurnRow)
    requires r in Recorded(table, log, row, mishap) && r !in table && r.request != row.request
    ensures r.seqNo >= SUPPLEMENT_SEQ_BASE && (r.eventType == AssistantReply || r.eventType == ToolCall)
  {
    hide DerivedFor, PrevRequest, BatchRows, Insertable;
    var sent := if mishap == BodyUnread then Unread(row) else row;
    var prev, events := PrevRequest(log, sent), DerivedFor(table, log, sent);
    assert r in BatchRows(sent, prev, events);
    RowsOfBatchAreTagged(sent, prev, events, r);
    DerivedIsTagged(table, log, sent);
  }

  lemma RecordedExtends(table: seq<TurnRow>, log: seq<LogRow>, row: LogRow, mishap: Mishap)
    ensures table <= Recorded(table, log, row, mishap)
    ensures forall r :: r in table ==> r in Recorded(table, log, row, mishap)
  {
    hide BatchFor, Insertable;
  }

  /** A replayed request changes no other request's standing as a candidate. */
  lemma RecordedOwnsOnlyItself(table: seq<TurnRow>, log: seq<LogRow>, row: LogRow, mishap: Mishap, request: string)
    requires request != row.request
    ensures Owned(Recorded(table, log, row, mishap), request) == Owned(table, request)
    ensures table <= Recorded(table, log, row, mishap)
  {
    hide Recorded;
    var after := Recorded(table, log, row, mishap);
    forall r | r in after && r !in table && r.request == request
      ensures r.seqNo >= SUPPLEMENT_SEQ_BASE
    {
      RecordedAddsElsewhere(table, log, row, mishap, r);
    }
    RecordedExtends(table, log, row, mishap);
  }

  lemma CandidatesSurvive(table: seq<TurnRow>, log: seq<LogRow>, row: LogRow, mishap: Mishap, after: nat)
    requires IsLog(log) && row in log && row.pk <= after
    ensures Candidates(Recorded(table, log, row, mishap), log, after) == Candidates(table, log, after)
  {
    hide Recorded, Candidates, Owned;
    var next := Recorded(table, log, row, mishap);
    CandidatesAre(table, log, after);
    CandidatesAre(next, log, after);
    forall r ensures r in Candidates(next, log, after) <==> r in Candidates(table, log, after) {
      if r in log && r.pk > after {
        assert r.request != row.request;
        RecordedOwnsOnlyItself(table, log, row, mishap, r.request);
      }
    }
    AscendingIsUnique(Candidates(next, log, after), Candidates(table, log, after));
  }

  lemma {:induction false} CandidatesSurviveBatch(table: seq<TurnRow>, log: seq<LogRow>, batch: seq<LogRow>,
                                                  faults: map<string, Mishap>, after: nat)
    requires IsLog(log) && forall r :: r in batch ==> r in log && r.pk <= after
    ensures Candidates(Processed(table, log, batch, faults), log, after) == Candidates(table, log, after)
  {
    hide Recorded, Candidates;
    if batch != [] {
      var init, last := batch[..|batch| - 1], batch[|batch| - 1];
      CandidatesSurviveBatch(table, log, init, faults, after);
      assert last in batch;
      CandidatesSurvive(Processed(table, log, init, faults), log, last, MishapOf(faults, last), after);
    }
  }

  lemma {:induction false} ProcessedConcat(table: seq<TurnRow>, log: seq<LogRow>, a: seq<LogRow>, b: seq<LogRow>,
                                           faults: map<string, Mishap>)
    ensures Processed(table, log, a + b, faults) == Processed(Processed(table, log, a, faults), log, b, faults)
  {
    hide Recorded;
    if b == [] {
      assert a + b == a;
    } else {
      assert (a + b)[..|a + b| - 1] == a + b[..|b| - 1];
      ProcessedConcat(table, log, a, b[..|b| - 1], faults);
    }
  }

  // ----- The pass -----

  /** One bounded round: up to `limit` candidates past the cursor, oldest first. */
  method BackfillRound(store: Store, log: seq<LogRow>, afterID: nat, limit: int, faults: map<string, Mishap>)
    returns (lastID: nat, scanned: nat)
    requires IsLog(log)
    modifies store
    ensures var cs := Candidates(old(store.table), log, afterID);
            var cap := if limit <= 0 then DEFAULT_BATCH_SIZE else limit;
            && scanned == (if |cs| < cap then |cs| else cap)
            && lastID == (if scanned == 0 then afterID else cs[scanned - 1].pk)
            && store.table == Processed(old(store.table), log, cs[..scanned], faults)
  {
    hide Recorded, Candidates, IsLog, AfterWrite, WithPending;
    var cap := if limit <= 0 then DEFAULT_BATCH_SIZE else limit;
    var cs := Candidates(store.table, log, afterID);
    var batch := if |cs| < cap then cs else cs[..cap];
    lastID, scanned := afterID, 0;
    for i := 0 to |batch|
      invariant scanned == i
      invariant lastID == if i == 0 then afterID else batch[i - 1].pk
      invariant store.table == Processed(old(store.table), log, batch[..i], faults)
    {
      assert batch[..i + 1][..i] == batch[..i];
      lastID := batch[i].pk;
      scanned := scanned + 1;
      ghost var before := store.table;
      var mishap := MishapOf(faults, batch[i]);
      var in_ := if mishap.BodyUnread? then Unread(batch[i]) else batch[i];
      var _ := store.RecordTurnsForRequest(in_, log, if mishap.BodyUnread? then NoFault else mishap.fault);
      assert store.table == Recorded(before, log, batch[i], mishap) by { RecordedIs(before, log, batch[i], mishap); }
    }
    assert batch[..|batch|] == batch == cs[..scanned];
  }

  lemma RecordedIs(table: seq<TurnRow>, log: seq<LogRow>, row: LogRow, mishap: Mishap)
    ensures SessionOf(Unread(row)) == SessionOf(row)
    ensures SessionOf(row) == "" ==> Recorded(table, log, row, mishap) == table
    ensures SessionOf(row) != "" && mishap == NONE ==> Recorded(table, log, row, mishap) == AfterWrite(table, log, row)
    ensures SessionOf(row) != "" && mishap == Engine(StepFails) ==> Recorded(table, log, row, mishap) == WithPending(table, row)
    ensures mishap == Engine(EverythingFails) ==> Recorded(table, log, row, mishap) == table
    ensures SessionOf(row) != "" && mishap == BodyUnread ==> Recorded(table, log, row, mishap) == AfterWrite(table, log, Unread(row))
  {
    hide BatchFor, Insertable;
  }

  /**
   The whole pass, rounds back to back. It ends on every log, under any faults,
   and does exactly this: replay each request that was a candidate when it
   began, once, in id order.
   */
  method BackfillAll(store: Store, log: seq<LogRow>, faults: map<string, Mishap>) returns (processed: nat)
    requires IsLog(log)
    modifies store
    ensures processed == |Candidates(old(store.table), log, 0)|
    ensures store.table == Processed(old(store.table), log, Candidates(old(store.table), log, 0), faults)
  {
    hide Recorded, Candidates, Processed, IsLog, Owned;
    ghost var start := store.table;
    ghost var all := Candidates(start, log, 0);
    processed := 0;
    var cursor: nat := 0;
    assert all[..0] == [] && all[0..] == all;
    assert Processed(start, log, [], faults) == start by { ProcessedNothing(start, log, faults); }
    while true
      invariant processed <= |all|
      invariant store.table == Processed(start, log, all[..processed], faults)
      invariant Candidates(store.table, log, cursor) == all[processed..]
      invariant processed > 0 ==> cursor == all[processed - 1].pk
      decreases |all| - processed
    {
      ghost var table, from, done := store.table, cursor, processed;
      var lastID, scanned := BackfillRound(store, log, cursor, DEFAULT_BATCH_SIZE, faults);
      RoundLeavesTheRest(table, log, from, scanned, faults);
      assert all[..done] + all[done..][..scanned] == all[..done + scanned];
      ProcessedConcat(start, log, all[..done], all[done..][..scanned], faults);
      assert all[done..][scanned..] == all[done + scanned..];
      processed := processed + scanned;
      cursor := lastID;
      if scanned < DEFAULT_BATCH_SIZE {
        assert all[..processed] == all;
        return;
      }
    }
  }

  lemma ProcessedNothing(table: seq<TurnRow>, log: seq<LogRow>, faults: map<string, Mishap>)
    ensures Processed(table, log, [], faults) == table
  {
  }

  /** After a round the candidates past the new cursor are those it did not reach. */
  lemma RoundLeavesTheRest(table: seq<TurnRow>, log: seq<LogRow>, after: nat, k: nat, faults: map<string, Mishap>)
    requires IsLog(log) && k <= |Candidates(table, log, after)|
    ensures var cs := Candidates(table, log, after);
            var cursor := if k == 0 then after else cs[k - 1].pk;
            && Candidates(Processed(table, log, cs[..k], faults), log, cursor) == cs[k..]
            && after <= cursor && (k > 0 ==> after < cursor)
  {
    hide Recorded, Candidates, Owned;
    var cs := Candidates(table, log, after);
    CandidatesAre(table, log, after);
    if k == 0 {
      ProcessedNothing(table, log, faults);
      assert cs[..0] == [];
    } else {
      CandidatesPastCursor(table, log, after, k);
      forall r | r in cs[..k] ensures r in log && r.pk <= cs[k - 1].pk {
        assert r in cs;
      }
      CandidatesSurviveBatch(table, log, cs[..k], faults, cs[k - 1].pk);
    }
  }

  // ----- What a pass achieves -----

  /** What a request brings, read off the log alone. */
  function BringsOf(log: seq<LogRow>, row: LogRow): Contribution {
    Brings(OwnOf(row), PrevBodyOf(PrevRequest(log, row)))
  }

  /** The supplement a request's write carries; it depends on captured bodies only. */
  function SupplementOf(log: seq<LogRow>, row: LogRow): seq<TurnRow> {
    var prev := PrevRequest(log, row);
    if prev.None? then []
    else RowsAt(prev.value, SUPPLEMENT_SEQ_BASE, SupplementPayloads(BringsOf(log, row).copies, true, HasInline(prev.value)))
  }

  /** Some row its write would add for its predecessor is there already. */
  predicate Blocked(table: seq<TurnRow>, log: seq<LogRow>, row: LogRow) {
    exists r :: r in SupplementOf(log, row) && Taken(table, r)
  }

  /** The own batch stays within its range. */
  predicate StaysInRange(log: seq<LogRow>, row: LogRow) {
    |BringsOf(log, row).elements| <= SUPPLEMENT_SEQ_BASE - 2
  }

  /** Pending markers sit at their own number, as the engine writes them. */
  predicate Tidy(table: seq<TurnRow>) {
    forall r :: r in table && r.eventType == Pending ==> r.seqNo == PENDING_SEQ
  }

  function OwnOfWrite(table: seq<TurnRow>, log: seq<LogRow>, row: LogRow): seq<Payload> {
    OwnPayloads(BringsOf(log, row), FetchSystemBaseline(table, SessionOf(row)), FetchLastUserInput(table, SessionOf(row)),
                OwnSource(OwnOf(row)))
  }

  lemma BatchInParts(table: seq<TurnRow>, log: seq<LogRow>, row: LogRow)
    requires row.session.Some?
    ensures BatchFor(table, log, row) == RowsAt(row, 0, OwnOfWrite(table, log, row)) + SupplementOf(log, row)
  {
    hide BringsOf, Brings, OwnPayloads, SupplementPayloads, FetchSystemBaseline, FetchLastUserInput, BatchRows,
         PrevRequest, RowsAt, Numbered;
    var prev, own := PrevRequest(log, row), OwnOfWrite(table, log, row);
    assert BringsOf(log, row) == Brings(OwnOf(row), PrevBodyOf(prev)) by { BringsOfIs(log, row); }
    BatchRowsOfOwn(row, prev, own);
    if prev.Some? {
      PrevRequestIsLatest(log, row);
      BatchRowsOfSupplement(row, prev.value, Numbered(0, own, false),
                            SupplementPayloads(BringsOf(log, row).copies, true, HasInline(prev.value)));
    } else {
      NoSupplement(BringsOf(log, row).copies, false);
      assert Numbered(0, own, false) + Numbered(SUPPLEMENT_SEQ_BASE, [], true) == Numbered(0, own, false);
    }
  }

  lemma BringsOfIs(log: seq<LogRow>, row: LogRow)
    ensures BringsOf(log, row) == Brings(OwnOf(row), PrevBodyOf(PrevRequest(log, row)))
  {
  }

  lemma {:induction false} KeptIsNoLonger(f: FoldState, els: seq<Json>)
    ensures |Kept(f, els)| <= |els|
  {
    hide Keeps;
    if els != [] {
      KeptIsNoLonger(f, els[..|els| - 1]);
    }
  }

  lemma OwnIsInRange(table: seq<TurnRow>, log: seq<LogRow>, row: LogRow)
    requires StaysInRange(log, row)
    ensures 0 < |OwnOfWrite(table, log, row)| <= SUPPLEMENT_SEQ_BASE
  {
    hide BringsOf, Kept, ElementPayloads, FetchSystemBaseline, FetchLastUserInput;
    var f, els := FetchLastUserInput(table, SessionOf(row)), BringsOf(log, row).elements;
    KeptIsNoLonger(f, els);
    ElementPayloadsLength(Kept(f, els));
  }

  /** The reply marker closes every own batch. */
  lemma OwnEndsInReply(table: seq<TurnRow>, log: seq<LogRow>, row: LogRow)
    ensures var own := OwnOfWrite(table, log, row);
            own != [] && own[|own| - 1].eventType == AssistantReply
  {
    hide BringsOf, Kept, ElementPayloads, FetchSystemBaseline, FetchLastUserInput;
  }

  /** A candidate's write lands exactly when it is not blocked. */
  lemma CandidateLandsUnlessBlocked(table: seq<TurnRow>, log: seq<LogRow>, row: LogRow)
    requires IsLog(log) && row in log && row.session.Some? && Tidy(table)
    requires !Owned(table, row.request) && StaysInRange(log, row)
    ensures Insertable(table, BatchFor(table, log, row)) <==> !Blocked(table, log, row)
  {
    hide BringsOf, OwnOfWrite, SupplementPayloads, PrevRequest, StaysInRange;
    var own := OwnOfWrite(table, log, row);
    BatchInParts(table, log, row);
    OwnIsInRange(table, log, row);
    RowsAtIdentity(row, 0, own);
    RowsAtKeysUnique(row, 0, own);
    var prev := PrevRequest(log, row);
    if prev.Some? {
      PredecessorIsAnother(log, row);
      var sup := SupplementPayloads(BringsOf(log, row).copies, true, HasInline(prev.value));
      RowsAtIdentity(prev.value, SUPPLEMENT_SEQ_BASE, sup);
      RowsAtKeysUnique(prev.value, SUPPLEMENT_SEQ_BASE, sup);
    }
    forall r | r in RowsAt(row, 0, own) ensures !Taken(table, r) {
      assert forall t :: t in table && SameKey(t, r) ==>
          t.request == row.request && t.eventType != Pending && t.seqNo < SUPPLEMENT_SEQ_BASE;
    }
  }

  lemma PredecessorIsAnother(log: seq<LogRow>, row: LogRow)
    requires IsLog(log) && row in log && PrevRequest(log, row).Some?
    ensures PrevRequest(log, row).value in log && PrevRequest(log, row).value.request != row.request
  {
    hide PrevRequest;
    PrevRequestIsLatest(log, row);
    var p := PrevRequest(log, row).value;
    var i :| 0 <= i < |log| && log[i] == p;
    var j :| 0 <= j < |log| && log[j] == row;
  }

  /** No two requests share a predecessor. */
  lemma PredecessorsDiffer(log: seq<LogRow>, a: LogRow, b: LogRow)
    requires IsLog(log) && a in log && b in log && a.request != b.request
    requires a.session.Some? && b.session.Some?
    requires PrevRequest(log, a).Some? && PrevRequest(log, b).Some?
    ensures PrevRequest(log, a).value.request != PrevRequest(log, b).value.request
  {
    hide PrevRequest;
    PrevRequestIsLatest(log, a);
    PrevRequestIsLatest(log, b);
    var p, q := PrevRequest(log, a).value, PrevRequest(log, b).value;
    var k :| 0 <= k < |log| && log[k] == a;
    var l :| 0 <= l < |log| && log[l] == b;
    if a.session == b.session {
      assert Earlier(a, b) || Earlier(b, a);
      if Earlier(a, b) {
        assert IsBefore(a, b) && Earlier(p, a) && !Earlier(q, a);
      } else {
        assert IsBefore(b, a) && Earlier(q, b) && !Earlier(p, b);
      }
    }
    assert p != q;
    var i :| 0 <= i < |log| && log[i] == p;
    var j :| 0 <= j < |log| && log[j] == q;
  }

  lemma RecordedTidy(table: seq<TurnRow>, log: seq<LogRow>, row: LogRow)
    requires Tidy(table)
    ensures Tidy(Recorded(table, log, row, NONE))
  {
    hide OwnOfWrite, BringsOf, ToolCallPayloads, PrevRequest, BatchFor;
    if SessionOf(row) != "" && Insertable(table, BatchFor(table, log, row)) {
      BatchInParts(table, log, row);
      RowsAtIdentity(row, 0, OwnOfWrite(table, log, row));
      OwnHoldsNoMarker(table, log, row);
      SupplementHoldsNoMarker(log, row);
    }
  }

  lemma OwnHoldsNoMarker(table: seq<TurnRow>, log: seq<LogRow>, row: LogRow)
    ensures forall p :: p in OwnOfWrite(table, log, row) ==> p.eventType != Pending
  {
    hide BringsOf, Kept, ElementPayloads, FetchSystemBaseline, FetchLastUserInput;
    var kept := Kept(FetchLastUserInput(table, SessionOf(row)), BringsOf(log, row).elements);
    forall p: Payload | p in OwnOfWrite(table, log, row) ensures p.eventType != Pending {
      if p in ElementPayloads(kept) {
        ElementPayloadsAre(kept, p);
      }
    }
  }

  lemma SupplementHoldsNoMarker(log: seq<LogRow>, row: LogRow)
    ensures forall r :: r in SupplementOf(log, row) ==> r.eventType != Pending && r.seqNo >= SUPPLEMENT_SEQ_BASE
  {
    hide BringsOf, ToolCallPayloads, PrevRequest;
    var prev := PrevRequest(log, row);
    if prev.Some? {
      var copies := BringsOf(log, row).copies;
      var ps := SupplementPayloads(copies, true, HasInline(prev.value));
      RowsAtIdentity(prev.value, SUPPLEMENT_SEQ_BASE, ps);
      forall r | r in SupplementOf(log, row) ensures r.eventType != Pending {
        var p := Payload(r.eventType, r.content);
        assert p in ps;
        if p != ps[0] {
          ToolCallPayloadsAre(copies, p);
        }
      }
    }
  }

  /** Another request's write never blocks a request that was not blocked, nor frees one that was. */
  lemma BlockedIsStable(table: seq<TurnRow>, log: seq<LogRow>, row: LogRow, other: LogRow)
    requires IsLog(log) && row in log && other in log && SessionOf(row) != ""
    requires row.request != other.request && (SessionOf(other) != "" ==> StaysInRange(log, other))
    ensures Blocked(Recorded(table, log, other, NONE), log, row) == Blocked(table, log, row)
  {
    hide BringsOf, OwnOfWrite, SupplementPayloads, PrevRequest, StaysInRange, BatchFor;
    var after := Recorded(table, log, other, NONE);
    assert table <= after;
    if Blocked(after, log, row) && after != table {
      var r :| r in SupplementOf(log, row) && Taken(after, r);
      var t :| t in after && SameKey(t, r);
      BatchInParts(table, log, other);
      OwnIsInRange(table, log, other);
      RowsAtIdentity(other, 0, OwnOfWrite(table, log, other));
      SupplementHoldsNoMarker(log, row);
      if t !in table && t in SupplementOf(log, other) {
        SupplementIdentity(log, row, r);
        SupplementIdentity(log, other, t);
        PredecessorsDiffer(log, row, other);
      }
      assert t in table;
    }
    if Blocked(table, log, row) {
      var r :| r in SupplementOf(log, row) && Taken(table, r);
      var t :| t in table && SameKey(t, r);
      assert t in after;
    }
  }

  lemma SupplementIdentity(log: seq<LogRow>, row: LogRow, r: TurnRow)
    requires r in SupplementOf(log, row)
    ensures PrevRequest(log, row).Some? && r.request == PrevRequest(log, row).value.request
  {
    hide BringsOf, SupplementPayloads, PrevRequest;
    RowsAtIdentity(PrevRequest(log, row).value, SUPPLEMENT_SEQ_BASE,
                   SupplementPayloads(BringsOf(log, row).copies, true, HasInline(PrevRequest(log, row).value)));
  }

  /** A log the pass can be judged on: the own batches of its sessions' requests stay within their range. */
  predicate IsSessionLog(log: seq<LogRow>) {
    IsLog(log) && forall r :: r in log && SessionOf(r) != "" ==> StaysInRange(log, r)
  }

  /** What keeps a candidate one: no session to write under, or a row its write carries is there already. */
  predicate Stuck(table: seq<TurnRow>, log: seq<LogRow>, row: LogRow) {
    SessionOf(row) == "" || Blocked(table, log, row)
  }

  /** How a request stands after some requests were replayed. */
  lemma {:induction false} StandingAfter(table: seq<TurnRow>, log: seq<LogRow>, batch: seq<LogRow>, row: LogRow)
    requires IsSessionLog(log) && Tidy(table) && row in log
    requires forall r :: r in batch ==> r in log && !Owned(table, r.request)
    requires forall i, j :: 0 <= i < j < |batch| ==> batch[i].request != batch[j].request
    ensures (var after := Processed(table, log, batch, map[]);
             && Tidy(after) && table <= after
             && Owned(after, row.request) == (Owned(table, row.request) || (row in batch && !Stuck(table, log, row)))
             && (row !in batch ==> Stuck(after, log, row) == Stuck(table, log, row))
             && (row in batch && Stuck(table, log, row) ==> Stuck(after, log, row)))
  {
    hide Owned, Blocked, Recorded, StaysInRange, IsLog, Tidy;
    if batch != [] {
      var init, last := batch[..|batch| - 1], batch[|batch| - 1];
      assert batch == init + [last];
      assert last in batch;
      StandingAfter(table, log, init, row);
      StandingAfter(table, log, init, last);
      var before := Processed(table, log, init, map[]);
      assert last !in init;
      RecordedTidy(before, log, last);
      if row.request == last.request {
        SameRequestSameRow(log, row, last);
        OwnWriteDecides(before, log, row);
      } else {
        RecordedOwnsOnlyItself(before, log, last, NONE, row.request);
        if SessionOf(row) != "" {
          BlockedIsStable(before, log, row, last);
        }
      }
      assert MishapOf(map[], last) == NONE;
      RecordedExtends(before, log, last, NONE);
    }
  }

  lemma SameRequestSameRow(log: seq<LogRow>, a: LogRow, b: LogRow)
    requires IsLog(log) && a in log && b in log && a.request == b.request
    ensures a == b
  {
  }

  /** Replaying a candidate gives it its batch exactly when it is not stuck; a stuck one changes nothing. */
  lemma OwnWriteDecides(table: seq<TurnRow>, log: seq<LogRow>, row: LogRow)
    requires IsSessionLog(log) && Tidy(table) && row in log && !Owned(table, row.request)
    ensures Owned(Recorded(table, log, row, NONE), row.request) == !Stuck(table, log, row)
    ensures Stuck(table, log, row) ==> Recorded(table, log, row, NONE) == table
  {
    hide BringsOf, OwnOfWrite, SupplementOf, StaysInRange, Insertable, BatchFor;
    if SessionOf(row) != "" {
      CandidateLandsUnlessBlocked(table, log, row);
      if Insertable(table, BatchFor(table, log, row)) {
        BatchInParts(table, log, row);
        OwnIsInRange(table, log, row);
        OwnEndsInReply(table, log, row);
        var own := OwnOfWrite(table, log, row);
        var marker := RowsAt(row, 0, own)[|own| - 1];
        assert marker in Recorded(table, log, row, NONE);
      }
    }
  }

  /**
   After an undisturbed pass a session's request has its own batch exactly when it
   had one before or nothing blocked it: no row its write carries for its
   predecessor was there already.
   */
  lemma PassStoresTheUnblocked(table: seq<TurnRow>, log: seq<LogRow>, row: LogRow)
    requires IsSessionLog(log) && Tidy(table) && row in log && SessionOf(row) != ""
    ensures (var after := Processed(table, log, Candidates(table, log, 0), map[]);
             Owned(after, row.request) <==> Owned(table, row.request) || !Blocked(table, log, row))
  {
    hide Owned, Blocked, Processed, Candidates, StaysInRange;
    CandidatesAre(table, log, 0);
    CandidateRequestsDiffer(table, log);
    StandingAfter(table, log, Candidates(table, log, 0), row);
  }

  lemma CandidateRequestsDiffer(table: seq<TurnRow>, log: seq<LogRow>)
    requires IsLog(log)
    ensures var cs := Candidates(table, log, 0);
            forall i, j :: 0 <= i < j < |cs| ==> cs[i].request != cs[j].request
  {
    hide Candidates, IsCandidate;
    CandidatesAre(table, log, 0);
    var cs := Candidates(table, log, 0);
    forall i, j | 0 <= i < j < |cs| ensures cs[i].request != cs[j].request {
      assert cs[i] in cs && cs[j] in cs;
    }
  }

  lemma {:induction false} StuckBatchChangesNothing(table: seq<TurnRow>, log: seq<LogRow>, batch: seq<LogRow>)
    requires IsSessionLog(log) && Tidy(table)
    requires forall r :: r in batch ==> r in log && !Owned(table, r.request) && Stuck(table, log, r)
    ensures Processed(table, log, batch, map[]) == table
  {
    hide Owned, Stuck, Recorded, StaysInRange, IsLog;
    if batch != [] {
      var init, last := batch[..|batch| - 1], batch[|batch| - 1];
      assert batch == init + [last];
      StuckBatchChangesNothing(table, log, init);
      assert last in batch;
      OwnWriteDecides(table, log, last);
      assert MishapOf(map[], last) == NONE;
    }
  }

  /**
   A second pass changes nothing, and scans exactly the requests that were stuck
   all along; it scans none when there are none.
   */
  lemma SecondPassIsIdle(table: seq<TurnRow>, log: seq<LogRow>)
    requires IsSessionLog(log) && Tidy(table)
    ensures (var after := Processed(table, log, Candidates(table, log, 0), map[]);
             && Processed(after, log, Candidates(after, log, 0), map[]) == after
             && (forall r :: r in Candidates(after, log, 0)
                   <==> r in log && r.session.Some? && !Owned(table, r.request) && Stuck(table, log, r)))
  {
    hide Owned, Stuck, Processed, Candidates, StaysInRange;
    var cs := Candidates(table, log, 0);
    var after := Processed(table, log, cs, map[]);
    CandidatesAre(table, log, 0);
    CandidatesAre(after, log, 0);
    CandidateRequestsDiffer(table, log);
    forall r ensures r in Candidates(after, log, 0)
                 <==> r in log && r.session.Some? && !Owned(table, r.request) && Stuck(table, log, r)
    {
      if r in log {
        StandingAfter(table, log, cs, r);
      }
    }
    forall r | r in Candidates(after, log, 0) ensures Stuck(after, log, r) && Tidy(after) {
      StandingAfter(table, log, cs, r);
    }
    if Candidates(after, log, 0) == [] {
      ProcessedNothing(after, log, map[]);
    } else {
      var r := Candidates(after, log, 0)[0];
      assert r in Candidates(after, log, 0);
      StuckBatchChangesNothing(after, log, Candidates(after, log, 0));
    }
  }

  // ----- Pass after pass -----

  /** The table after some passes, one per startup, each under its own mishaps. */
  function Passes(table: seq<TurnRow>, log: seq<LogRow>, startups: seq<map<string, Mishap>>): seq<TurnRow> {
    if startups == [] then table
    else
      var before := Passes(table, log, startups[..|startups| - 1]);
      Processed(before, log, Candidates(before, log, 0), startups[|startups| - 1])
  }

  /** n startups on which nothing goes wrong. */
  function Calm(n: nat): (startups: seq<map<string, Mishap>>)
    ensures |startups| == n
  {
    seq(n, i => map[])
  }

  /** A blocked request stays without its batch however many undisturbed passes there are. */
  lemma {:induction false} BlockedIsForever(table: seq<TurnRow>, log: seq<LogRow>, row: LogRow, n: nat)
    requires IsSessionLog(log) && Tidy(table) && row in log && SessionOf(row) != ""
    requires !Owned(table, row.request) && Blocked(table, log, row)
    ensures (var after := Passes(table, log, Calm(n));
             Tidy(after) && !Owned(after, row.request) && Blocked(after, log, row))
  {
    hide Owned, Blocked, Processed, Candidates, StaysInRange, Tidy;
    if n > 0 {
      assert Calm(n)[..n - 1] == Calm(n - 1) && Calm(n)[n - 1] == map[];
      var before := Passes(table, log, Calm(n - 1));
      BlockedIsForever(table, log, row, n - 1);
      CandidatesAre(before, log, 0);
      CandidateRequestsDiffer(before, log);
      StandingAfter(before, log, Candidates(before, log, 0), row);
    }
  }

  // ----- A body row that cannot be read -----

  /** The one row such a request gets: a reply marker naming no source. */
  function Bare(row: LogRow): TurnRow {
    TurnRow(SessionOf(row), row.request, row.pk, row.createdAt, 0, AssistantReply, ReplyContent(Unrecorded, []))
  }

  lemma UnreadBatchIsBare(table: seq<TurnRow>, log: seq<LogRow>, row: LogRow)
    requires SessionOf(row) != ""
    ensures BatchFor(table, log, Unread(row)) == [Bare(row)]
  {
    hide PrevRequest, FetchSystemBaseline, FetchLastUserInput;
    var sent, f := Unread(row), FetchLastUserInput(table, SessionOf(row));
    UnreadBringsNothing(log, row);
    BatchInParts(table, log, sent);
    NothingKept(f);
    var own := OwnOfWrite(table, log, sent);
    assert own == [Payload(AssistantReply, ReplyContent(Unrecorded, []))] by {
      assert [] + [] + [Payload(AssistantReply, ReplyContent(Unrecorded, []))] == [Payload(AssistantReply, ReplyContent(Unrecorded, []))];
    }
    assert RowsAt(sent, 0, own) == [Bare(row)];
    NoneToSupplement(log, sent);
    assert [Bare(row)] + [] == [Bare(row)];
  }

  lemma NothingKept(f: FoldState)
    ensures ElementPayloads(Kept(f, [])) == []
  {
  }

  lemma NoneToSupplement(log: seq<LogRow>, row: LogRow)
    requires BringsOf(log, row).copies == []
    ensures SupplementOf(log, row) == []
  {
    hide BringsOf, PrevRequest;
  }

  lemma UnreadBringsNothing(log: seq<LogRow>, row: LogRow)
    ensures BringsOf(log, Unread(row)) == Contribution([], [], None)
  {
    hide PrevRequest;
    UnreadableBringsNothing(OwnOf(Unread(row)), PrevBodyOf(PrevRequest(log, Unread(row))));
  }

  lemma UnreadableBringsNothing(own: OwnBody, prev: Option<PrevBody>)
    requires own.body.length == 0
    ensures Brings(own, prev) == Contribution([], [], None)
  {
    hide OfRole, Elements, PrefixFrom;
    NothingOfNothing();
  }

  lemma NothingOfNothing()
    ensures Elements([]) == [] && OfRole([], "assistant") == []
  {
  }

  /**
   A failed read of the body row does not leave the request for the next startup:
   its one bare row lands exactly when the request's first number is free, and
   then the request counts as stored.
   */
  lemma UnreadIsStoredExactlyWhen(table: seq<TurnRow>, log: seq<LogRow>, row: LogRow)
    requires SessionOf(row) != ""
    ensures Recorded(table, log, row, BodyUnread) == if Taken(table, Bare(row)) then table else table + [Bare(row)]
    ensures Owned(Recorded(table, log, row, BodyUnread), row.request)
            <==> Owned(table, row.request) || !Taken(table, Bare(row))
  {
    hide BatchFor;
    UnreadBatchIsBare(table, log, row);
    assert Bare(row) in [Bare(row)];
    assert !Taken(table, Bare(row)) ==> Insertable(table, [Bare(row)]);
    if Owned(table, row.request) {
      RecordedExtends(table, log, row, BodyUnread);
    }
  }

  /** No row of the request is an input. */
  predicate HoldsNoInput(table: seq<TurnRow>, request: string) {
    forall r :: r in table && r.request == request ==> !IsInput(r.eventType)
  }

  /** Replaying others adds no input to a request and takes none of its first numbers. */
  lemma OthersAddNoInput(table: seq<TurnRow>, log: seq<LogRow>, row: LogRow, mishap: Mishap, other: LogRow)
    requires other.request != row.request && HoldsNoInput(table, other.request)
    ensures (var after := Recorded(table, log, row, mishap);
             HoldsNoInput(after, other.request) && (Taken(after, Bare(other)) ==> Taken(table, Bare(other))))
  {
    hide Recorded;
    var after := Recorded(table, log, row, mishap);
    forall r | r in after && r !in table && r.request == other.request
      ensures !IsInput(r.eventType) && r.seqNo >= SUPPLEMENT_SEQ_BASE
    {
      RecordedAddsElsewhere(table, log, row, mishap, r);
    }
  }

  lemma {:induction false} OthersBatchAddsNoInput(table: seq<TurnRow>, log: seq<LogRow>, batch: seq<LogRow>,
                                                  faults: map<string, Mishap>, row: LogRow)
    requires HoldsNoInput(table, row.request) && forall r :: r in batch ==> r.request != row.request
    ensures (var after := Processed(table, log, batch, faults);
             && HoldsNoInput(after, row.request) && (Taken(after, Bare(row)) ==> Taken(table, Bare(row)))
             && Owned(after, row.request) == Owned(table, row.request))
  {
    hide Recorded, HoldsNoInput, Owned, Taken;
    if batch != [] {
      var init, last := batch[..|batch| - 1], batch[|batch| - 1];
      assert last in batch;
      OthersBatchAddsNoInput(table, log, init, faults, row);
      var before := Processed(table, log, init, faults);
      OthersAddNoInput(before, log, last, MishapOf(faults, last), row);
      RecordedOwnsOnlyItself(before, log, last, MishapOf(faults, last), row.request);
    }
  }

  /** A pass whose read of a candidate's body fails stores the candidate bare. */
  lemma UnreadPassStoresBare(table: seq<TurnRow>, log: seq<LogRow>, row: LogRow, faults: map<string, Mishap>)
    requires IsLog(log) && row in log && SessionOf(row) != "" && Tidy(table)
    requires !Owned(table, row.request) && HoldsNoInput(table, row.request)
    requires MishapOf(faults, row) == BodyUnread
    ensures (var after := Processed(table, log, Candidates(table, log, 0), faults);
             Owned(after, row.request) && HoldsNoInput(after, row.request))
  {
    hide Recorded, HoldsNoInput, Owned, Candidates, Taken;
    var cs := Candidates(table, log, 0);
    CandidatesAre(table, log, 0);
    CandidateRequestsDiffer(table, log);
    assert row in cs;
    var k :| 0 <= k < |cs| && cs[k] == row;
    assert cs == cs[..k] + ([row] + cs[k + 1..]);
    ProcessedConcat(table, log, cs[..k], [row] + cs[k + 1..], faults);
    var before := Processed(table, log, cs[..k], faults);
    OthersBatchAddsNoInput(table, log, cs[..k], faults, row);
    FirstNumberIsFree(table, row);
    ProcessedConcat(before, log, [row], cs[k + 1..], faults);
    ProcessedOne(before, log, row, faults);
    UnreadIsStoredExactlyWhen(before, log, row);
    BareIsNoInput(before, row);
    OthersBatchAddsNoInput(Recorded(before, log, row, BodyUnread), log, cs[k + 1..], faults, row);
  }

  lemma FirstNumberIsFree(table: seq<TurnRow>, row: LogRow)
    requires Tidy(table) && !Owned(table, row.request)
    ensures !Taken(table, Bare(row))
  {
  }

  lemma ProcessedOne(table: seq<TurnRow>, log: seq<LogRow>, row: LogRow, faults: map<string, Mishap>)
    ensures Processed(table, log, [row], faults) == Recorded(table, log, row, MishapOf(faults, row))
  {
    hide Recorded;
    assert [row][..0] == [];
    ProcessedNothing(table, log, faults);
  }

  lemma BareIsNoInput(table: seq<TurnRow>, row: LogRow)
    requires HoldsNoInput(table, row.request)
    ensures HoldsNoInput(table + [Bare(row)], row.request)
  {
  }

  /**
   Such a request is never read again: whatever later startups bring, it stays
   stored, is no candidate, and shows no message of its own.
   */
  lemma {:induction false} UnreadIsNeverRetried(table: seq<TurnRow>, log: seq<LogRow>, row: LogRow,
                                                faults: map<string, Mishap>, later: seq<map<string, Mishap>>)
    requires IsLog(log) && row in log && SessionOf(row) != "" && Tidy(table)
    requires !Owned(table, row.request) && HoldsNoInput(table, row.request)
    requires MishapOf(faults, row) == BodyUnread
    ensures (var after := Passes(Processed(table, log, Candidates(table, log, 0), faults), log, later);
             && Owned(after, row.request) && row !in Candidates(after, log, 0)
             && HoldsNoInput(after, row.request) && ReadAdded(ListTurns(after, row.request)) == [])
  {
    hide Recorded, HoldsNoInput, Owned, Candidates, Processed, ReadAdded, ListTurns;
    var first := Processed(table, log, Candidates(table, log, 0), faults);
    if later == [] {
      UnreadPassStoresBare(table, log, row, faults);
    } else {
      var init := later[..|later| - 1];
      var before := Passes(first, log, init);
      UnreadIsNeverRetried(table, log, row, faults, init);
      CandidatesAre(before, log, 0);
      forall r | r in Candidates(before, log, 0) ensures r.request != row.request {
      }
      OthersBatchAddsNoInput(before, log, Candidates(before, log, 0), later[|later| - 1], row);
    }
    var after := Passes(first, log, later);
    CandidatesAre(after, log, 0);
    NoInputNoAdded(after, row.request);
  }

  lemma NoInputNoAdded(table: seq<TurnRow>, request: string)
    requires HoldsNoInput(table, request)
    ensures ReadAdded(ListTurns(table, request)) == []
  {
    hide ReadAdded, ListTurns;
    var turns := ListTurns(table, request);
    RowsRead(table, request);
    ReadAddedOfConcat([], turns);
    ReadAddedOfNone();
    assert [] + turns == turns;
  }

  // ----- A request no pass ever stores -----

  function Plain(id: string, pk: nat, at: int, ms: seq<Json>): LogRow {
    LogRow(Some("s"), id, pk, at, RequestBody(1, Some(map["messages" := Arr(ms)])),
           Capture("", false), "", Capture("", false))
  }

  /** `R` is stamped after `Q`, but is logged and written before it. */
  const P := Plain("p", 1, 0, [])
  const R := Plain("r", 2, 2, [REPLY_COPY])
  const Q := Plain("q", 3, 1, [REPLY_COPY])

  lemma LatePredecessors()
    ensures PrevRequest([P], P) == None
    ensures PrevRequest([P, R], R) == Some(P)
    ensures PrevRequest([P, R, Q], Q) == Some(P)
  {
    hide PrevRequest;
    assert [] + [P] == [P] && [P] + [R] == [P, R] && [P, R] + [Q] == [P, R, Q];
    NobodyBefore(P);
    NobodyBefore(R);
    NobodyBefore(Q);
    OneMoreLogged([], P, P);
    OneMoreLogged([], P, R);
    OneMoreLogged([P], R, R);
    OneMoreLogged([], P, Q);
    OneMoreLogged([P], R, Q);
    OneMoreLogged([P, R], Q, Q);
  }

  lemma NobodyBefore(row: LogRow)
    ensures PrevRequest([], row) == None
  {
  }

  lemma OneMoreLogged(log: seq<LogRow>, next: LogRow, row: LogRow)
    ensures (var before := PrevRequest(log, row);
             PrevRequest(log + [next], row)
             == if IsBefore(next, row) && (before.None? || Earlier(before.value, next)) then Some(next) else before)
  {
    assert (log + [next])[..|log|] == log;
  }

  /** A first suffix is the whole list. */
  lemma SuffixOfAll(ms: seq<Json>)
    ensures NewSuffix([], ms) == ms
  {
  }

  lemma PlainParses(row: LogRow, ms: seq<Json>)
    requires row.body == RequestBody(1, Some(map["messages" := Arr(ms)]))
    ensures Parse(row.body, IsCapped(row.body)).messages == ms
  {
    hide OfRole;
  }

  lemma CopyOfReply()
    ensures OfRole([REPLY_COPY], "assistant") == [REPLY_COPY] && Elements([REPLY_COPY]) == []
  {
    hide OfRole, Elements;
    assert [] + [REPLY_COPY] == [REPLY_COPY];
    CopiesOfOneMore([], REPLY_COPY);
    ElementsOfOneMore([], REPLY_COPY);
    NoCopies();
    NoToolMessages();
  }

  lemma LateBrings(log: seq<LogRow>, row: LogRow)
    requires (row == R || row == Q) && PrevRequest(log, row) == Some(P)
    ensures BringsOf(log, row).copies == [REPLY_COPY] && BringsOf(log, row).elements == []
  {
    hide PrevRequest, Parse, OfRole, Elements, PrefixFrom;
    PlainParses(row, [REPLY_COPY]);
    PlainParses(P, []);
    SuffixOfAll([REPLY_COPY]);
    CopyOfReply();
  }

  lemma LateCopies(log: seq<LogRow>, row: LogRow)
    requires (row == R || row == Q) && PrevRequest(log, row) == Some(P)
    ensures BringsOf(log, row).elements == [] && SupplementOf(log, row) != []
    ensures SupplementOf(log, row)[0].request == "p" && SupplementOf(log, row)[0].seqNo == SUPPLEMENT_SEQ_BASE
  {
    LateBrings(log, row);
    hide PrevRequest, BringsOf, ToolCallPayloads;
  }

  /** The table once `P` and `R` are written, `Q` not yet logged. */
  function LateTable(): seq<TurnRow> {
    AfterWrite(AfterWrite([], [P], P), [P, R], R)
  }

  lemma FirstWriteHoldsItself()
    ensures forall r :: r in AfterWrite([], [P], P) ==> r.request == "p" && r.eventType != Pending
    ensures forall r :: r in AfterWrite([], [P], P) ==> r.seqNo < SUPPLEMENT_SEQ_BASE
  {
    hide OwnOfWrite, BringsOf, PrevRequest, BatchFor;
    LatePredecessors();
    BatchInParts([], [P], P);
    OwnHoldsNoMarker([], [P], P);
    NothingBrought([P], P);
    OwnIsInRange([], [P], P);
    RowsAtIdentity(P, 0, OwnOfWrite([], [P], P));
  }

  /** Whatever came before, none of the three brings an element. */
  lemma NothingBrought(log: seq<LogRow>, row: LogRow)
    requires row == P || row == R || row == Q
    ensures BringsOf(log, row).elements == []
  {
    hide PrevRequest, Parse, OfRole, Elements;
    var ms := if row == P then [] else [REPLY_COPY];
    PlainParses(row, ms);
    CopyOfReply();
    NoToolMessages();
    var prev := PrevBodyOf(PrevRequest(log, row));
    var before := if prev.None? then [] else Parse(prev.value.body, IsCapped(prev.value.body)).messages;
    assert NewSuffix(before, ms) == [] || NewSuffix(before, ms) == ms;
  }

  /** `R`'s write put a supplement under `P`, where `Q`'s would go. */
  lemma LateTableHoldsTheClash()
    ensures SupplementOf([P, R], R) != [] && SupplementOf([P, R], R)[0] in LateTable()
    ensures forall r :: r in LateTable() ==> r.request == "p" || r.request == "r"
  {
    hide OwnOfWrite, BringsOf, PrevRequest, BatchFor, SupplementOf, StaysInRange;
    var t1 := AfterWrite([], [P], P);
    LatePredecessors();
    FirstWriteHoldsItself();
    LateCopies([P, R], R);
    assert StaysInRange([P, R], R) by { InRangeIs([P, R], R); }
    CandidateLandsUnlessBlocked(t1, [P, R], R);
    SupplementsOf([P, R], R);
    assert !Blocked(t1, [P, R], R);
    BatchInParts(t1, [P, R], R);
    RowsAtIdentity(R, 0, OwnOfWrite(t1, [P, R], R));
    assert LateTable() == t1 + BatchFor(t1, [P, R], R);
  }

  lemma LateIsBlocked()
    ensures Blocked(LateTable(), [P, R, Q], Q) && !Owned(LateTable(), "q")
  {
    hide BringsOf, PrevRequest, SupplementOf, LateTable;
    LatePredecessors();
    LateTableHoldsTheClash();
    LateCopies([P, R], R);
    LateCopies([P, R, Q], Q);
    var clash, refused := SupplementOf([P, R], R)[0], SupplementOf([P, R, Q], Q)[0];
    assert SameKey(clash, refused) && Taken(LateTable(), refused);
  }

  /** What the engine writes is tidy. */
  lemma WritesAreTidy(table: seq<TurnRow>, log: seq<LogRow>, row: LogRow)
    requires Tidy(table)
    ensures Tidy(AfterWrite(table, log, row))
  {
    hide Tidy, AfterWrite;
    RecordedTidy(table, log, row);
    RecordedIs(table, log, row, NONE);
    if SessionOf(row) == "" {
      NoSessionNoWrite(table, log, row);
    }
  }

  lemma LateLogIsInRange()
    ensures IsSessionLog([P, R, Q]) && Tidy(LateTable())
  {
    hide BringsOf, PrevRequest, AfterWrite, Tidy;
    NothingBrought([P, R, Q], P);
    NothingBrought([P, R, Q], R);
    NothingBrought([P, R, Q], Q);
    NothingIsTidy();
    WritesAreTidy([], [P], P);
    WritesAreTidy(AfterWrite([], [P], P), [P, R], R);
  }

  lemma NothingIsTidy()
    ensures Tidy([])
  {
  }

  /**
   Two requests that share a predecessor because one was logged late make the stop
   real: `R`'s write took the supplement's place, so `Q`'s batch is refused,
   silently, by every undisturbed pass there will ever be.
   */
  lemma LateRequestIsNeverStored(n: nat)
    ensures !Owned(Passes(LateTable(), [P, R, Q], Calm(n)), "q")
  {
    hide Owned, Blocked, Passes, LateTable, IsSessionLog, Tidy;
    LateIsBlocked();
    LateLogIsInRange();
    assert Q in [P, R, Q];
    BlockedIsForever(LateTable(), [P, R, Q], Q, n);
  }

  lemma InRangeIs(log: seq<LogRow>, row: LogRow)
    requires |BringsOf(log, row).elements| == 0
    ensures StaysInRange(log, row)
  {
  }

  lemma SupplementsOf(log: seq<LogRow>, row: LogRow)
    requires PrevRequest(log, row) == Some(P)
    ensures forall r :: r in SupplementOf(log, row) ==> r.request == "p" && r.seqNo >= SUPPLEMENT_SEQ_BASE
  {
    hide BringsOf, SupplementPayloads, PrevRequest;
    RowsAtIdentity(P, SUPPLEMENT_SEQ_BASE, SupplementPayloads(BringsOf(log, row).copies, true, HasInline(P)));
  }
}
