/**
 Whole runs of the write path over any number of interleaved sessions, and the
 main theorem: what the transcript reads back is the whole-session replay.
 */
module SessionRuns {
  import opened Wrappers
  import opened Json
  import opened Classify
  import opened Replay
  import opened Derive
  import opened Rows
  import opened TurnStore
  import opened Parity

  /** One request's write, with the request log as that write sees it. */
  datatype WriteOp = WriteOp(row: LogRow, log: seq<LogRow>)

  /** The table after the writes, each of them undisturbed. */
  function Run(ops: seq<WriteOp>): seq<TurnRow> {
    if ops == [] then []
    else AfterWrite(Run(ops[..|ops| - 1]), ops[|ops| - 1].log, ops[|ops| - 1].row)
  }

  /** The requests of one session, in the order they were written. */
  function RowsOf(ops: seq<WriteOp>, session: string): (rows: seq<LogRow>)
    ensures forall r :: r in rows ==> r.session == Some(session) && exists j :: 0 <= j < |ops| && ops[j].row == r
  {
    if ops == [] then []
    else
      var row := ops[|ops| - 1].row;
      RowsOf(ops[..|ops| - 1], session) + if row.session == Some(session) then [row] else []
  }

  /**
   A session's requests are written in session order: ids are unique, each write
   comes after the earlier requests of its session, and the log it reads holds
   exactly those as its predecessors.
   */
  ghost predicate InOrderAt(ops: seq<WriteOp>, k: nat)
    requires k < |ops|
  {
    var row, log, before := ops[k].row, ops[k].log, RowsOf(ops[..k], SessionOf(ops[k].row));
    && (forall j :: 0 <= j < k ==> ops[j].row.request != row.request)
    && (forall r :: r in before ==> r in log && Earlier(r, row))
    && (forall r :: r in log && IsBefore(r, row) ==> r in before)
  }

  ghost predicate InOrder(ops: seq<WriteOp>) {
    forall k :: 0 <= k < |ops| ==> InOrderAt(ops, k)
  }

  // ----- The session inside the run -----

  lemma {:induction false} RowsOfPrefix(ops: seq<WriteOp>, n: nat, session: string)
    requires n <= |ops|
    ensures RowsOf(ops[..n], session) <= RowsOf(ops, session)
    decreases |ops|
  {
    if n < |ops| {
      RowsOfPrefix(ops[..|ops| - 1], n, session);
      assert ops[..|ops| - 1][..n] == ops[..n];
    } else {
      assert ops[..n] == ops;
    }
  }

  lemma RowsOfOneMore(ops: seq<WriteOp>, k: nat, session: string)
    requires k < |ops|
    ensures RowsOf(ops[..k + 1], session)
         == RowsOf(ops[..k], session) + if ops[k].row.session == Some(session) then [ops[k].row] else []
  {
    assert ops[..k + 1][..k] == ops[..k];
  }

  /** The session's next request sits right after those already written. */
  lemma NextRowOfSession(ops: seq<WriteOp>, k: nat)
    requires k < |ops| && ops[k].row.session.Some?
    ensures var before, all := RowsOf(ops[..k], SessionOf(ops[k].row)), RowsOf(ops, SessionOf(ops[k].row));
            && |before| < |all| && all[|before|] == ops[k].row && all[..|before|] == before
            && RowsOf(ops[..k + 1], SessionOf(ops[k].row)) == before + [ops[k].row]
  {
    hide RowsOf;
    var session := SessionOf(ops[k].row);
    RowsOfOneMore(ops, k, session);
    RowsOfPrefix(ops, k + 1, session);
    var before, all := RowsOf(ops[..k], session), RowsOf(ops, session);
    assert all[..|before| + 1] == before + [ops[k].row];
    assert all[..|before|] == all[..|before| + 1][..|before|];
    assert all[|before|] == all[..|before| + 1][|before|];
  }

  lemma {:induction false} RowsOfIsSession(ops: seq<WriteOp>, session: string)
    requires InOrder(ops) && session != ""
    ensures IsSession(RowsOf(ops, session), session)
  {
    if ops != [] {
      var k := |ops| - 1;
      assert forall j :: 0 <= j < k ==> ops[..k][j] == ops[j] && ops[..k][..j] == ops[..j];
      forall j | 0 <= j < k ensures InOrderAt(ops[..k], j) {
        assert InOrderAt(ops, j);
      }
      RowsOfIsSession(ops[..k], session);
      var before, row := RowsOf(ops[..k], session), ops[k].row;
      if row.session == Some(session) {
        assert InOrderAt(ops, k);
        forall i | 0 <= i < |before| ensures Earlier(before[i], row) && before[i].request != row.request {
          assert before[i] in before;
        }
      }
    }
  }

  lemma PredecessorIsFound(ops: seq<WriteOp>, k: nat)
    requires InOrder(ops) && k < |ops| && SessionOf(ops[k].row) != ""
    ensures var rows := RowsOf(ops, SessionOf(ops[k].row));
            var m := |RowsOf(ops[..k], SessionOf(ops[k].row))|;
            m < |rows| && PrevRequest(ops[k].log, ops[k].row) == PredecessorOf(rows, m)
  {
    var row, log, session := ops[k].row, ops[k].log, SessionOf(ops[k].row);
    var before, rows := RowsOf(ops[..k], session), RowsOf(ops, session);
    NextRowOfSession(ops, k);
    RowsOfIsSession(ops, session);
    PrevRequestIsLatest(log, row);
    assert InOrderAt(ops, k);
    var p := PrevRequest(log, row);
    if before == [] {
      assert p.None?;
    } else {
      var last := before[|before| - 1];
      assert last in before && IsBefore(last, row);
      var i :| 0 <= i < |before| && before[i] == p.value;
      assert rows[i] == before[i] && rows[|before| - 1] == last;
    }
  }

  // ----- The invariant of the run -----

  /** Every stored row is of a request already written, in that request's session. */
  ghost predicate Grounded(table: seq<TurnRow>, ops: seq<WriteOp>, n: nat)
    requires n <= |ops|
  {
    forall r :: r in table ==>
      exists j :: 0 <= j < n && SameIdentity(r, ops[j].row) && ops[j].row.session == Some(r.session)
  }

  /** Within a grounded table a request's rows are rows of its session. */
  lemma RequestWithinSession(table: seq<TurnRow>, ops: seq<WriteOp>, n: nat, row: LogRow)
    requires InOrder(ops) && n <= |ops| && Grounded(table, ops, n)
    requires row.session.Some? && exists j :: 0 <= j < |ops| && ops[j].row == row
    ensures Select(table, OfRequest(row.request))
         == Select(Select(table, OfSession(SessionOf(row))), OfRequest(row.request))
  {
    var at :| 0 <= at < |ops| && ops[at].row == row;
    forall r | r in table && Matches(r, OfRequest(row.request)) ensures Matches(r, OfSession(SessionOf(row))) {
      var j :| 0 <= j < n && SameIdentity(r, ops[j].row) && ops[j].row.session == Some(r.session);
      RequestIdsAreUnique(ops, j, at);
    }
    SelectWithin(table, OfSession(SessionOf(row)), OfRequest(row.request));
  }

  lemma RequestIdsAreUnique(ops: seq<WriteOp>, i: nat, j: nat)
    requires InOrder(ops) && i < |ops| && j < |ops| && ops[i].row.request == ops[j].row.request
    ensures i == j
  {
    assert InOrderAt(ops, i) && InOrderAt(ops, j);
  }

  /** Materialized rows are of the written request or of its predecessor, all in the written request's session. */
  lemma {:induction false} BatchRowsIdentity(row: LogRow, prev: Option<LogRow>, events: seq<TurnEvent>, r: TurnRow)
    requires r in BatchRows(row, prev, events)
    ensures r.session == SessionOf(row)
    ensures exists of_ :: (of_ == row || Some(of_) == prev)
                          && r.request == of_.request && r.pk == of_.pk && r.createdAt == of_.createdAt
  {
    var init := events[..|events| - 1];
    if r in BatchRows(row, prev, init) {
      BatchRowsIdentity(row, prev, init, r);
    }
  }

  lemma {:induction false} RowsOfBatchAreTagged(row: LogRow, prev: Option<LogRow>, events: seq<TurnEvent>, r: TurnRow)
    requires r in BatchRows(row, prev, events)
    ensures exists e :: e in events && r.seqNo == e.seqNo && r.eventType == e.eventType && r.content == e.content
              && (!e.forPrev ==> r.request == row.request)
              && (e.forPrev ==> prev.Some? && r.request == prev.value.request)
  {
    var init, last := events[..|events| - 1], events[|events| - 1];
    assert events == init + [last];
    if r in BatchRows(row, prev, init) {
      RowsOfBatchAreTagged(row, prev, init, r);
    } else {
      assert last in events;
    }
  }

  /** What a write adds for its predecessor sits in the supplement range and is no input. */
  lemma DerivedIsTagged(table: seq<TurnRow>, log: seq<LogRow>, row: LogRow)
    ensures forall e :: e in DerivedFor(table, log, row) && e.forPrev ==>
              e.seqNo >= SUPPLEMENT_SEQ_BASE && (e.eventType == AssistantReply || e.eventType == ToolCall)
  {
    hide OwnPayloads, SupplementPayloads, Brings, FetchSystemBaseline, FetchLastUserInput, PrevRequest;
    var own, prev := OwnOf(row), PrevBodyOf(PrevRequest(log, row));
    var copies := Brings(own, prev).copies;
    SupplementPayloadsAre(copies, prev.Some?, prev.Some? && prev.value.hasInlineReply);
    forall e | e in DerivedFor(table, log, row) && e.forPrev
      ensures e.seqNo >= SUPPLEMENT_SEQ_BASE && (e.eventType == AssistantReply || e.eventType == ToolCall)
    {
      var ps := SupplementPayloads(copies, prev.Some?, prev.Some? && prev.value.hasInlineReply);
      assert e in Numbered(SUPPLEMENT_SEQ_BASE, ps, true);
      assert Payload(e.eventType, e.content) in ps;
    }
  }

  lemma SupplementPayloadsAre(copies: seq<Json>, hasPrev: bool, inline: bool)
    ensures forall p :: p in SupplementPayloads(copies, hasPrev, inline) ==>
              p.eventType == AssistantReply || p.eventType == ToolCall
  {
    hide ToolCallPayloads;
    forall p | p in ToolCallPayloads(copies) ensures p.eventType == ToolCall {
      ToolCallPayloadsAre(copies, p);
    }
  }

  /** A write's rows are of requests written by then, in its own session. */
  lemma BatchIsGrounded(ops: seq<WriteOp>, n: nat, table: seq<TurnRow>, r: TurnRow)
    requires InOrder(ops) && n < |ops| && SessionOf(ops[n].row) != ""
    requires r in BatchFor(table, ops[n].log, ops[n].row)
    ensures r.session == SessionOf(ops[n].row)
    ensures exists j :: 0 <= j < n + 1 && SameIdentity(r, ops[j].row) && ops[j].row.session == Some(r.session)
  {
    hide DerivedFor, PrevRequest, BatchRows, InOrder;
    var row, session := ops[n].row, SessionOf(ops[n].row);
    var before, prev := RowsOf(ops[..n], session), PrevRequest(ops[n].log, row);
    PredecessorIsFound(ops, n);
    NextRowOfSession(ops, n);
    BatchRowsIdentity(row, prev, DerivedFor(table, ops[n].log, row), r);
    var of_ :| (of_ == row || Some(of_) == prev)
               && r.request == of_.request && r.pk == of_.pk && r.createdAt == of_.createdAt;
    if of_ != row {
      assert of_ == before[|before| - 1] && of_ in before;
      var j :| 0 <= j < n && ops[..n][j].row == of_;
      assert ops[j].row == of_;
    }
  }

  /** A write keeps the table grounded, and touches no session but its own. */
  lemma WriteIsGrounded(ops: seq<WriteOp>, n: nat, table: seq<TurnRow>)
    requires InOrder(ops) && n < |ops| && SessionOf(ops[n].row) != "" && Grounded(table, ops, n)
    ensures Grounded(AfterWrite(table, ops[n].log, ops[n].row), ops, n + 1)
    ensures forall r :: r in BatchFor(table, ops[n].log, ops[n].row) ==> r.session == SessionOf(ops[n].row)
  {
    hide BatchFor, Insertable, InOrder;
    var batch := BatchFor(table, ops[n].log, ops[n].row);
    forall r | r in batch
      ensures r.session == SessionOf(ops[n].row)
      ensures exists j :: 0 <= j < n + 1 && SameIdentity(r, ops[j].row) && ops[j].row.session == Some(r.session)
    {
      BatchIsGrounded(ops, n, table, r);
    }
    assert Grounded(batch, ops, n + 1);
    hide Grounded;
    GroundedGrows(table, batch, ops, n);
    NothingIsGroundedAt(ops, n + 1);
    GroundedGrows(table, [], ops, n);
    assert table + [] == table;
  }

  lemma NothingOfIts(ops: seq<WriteOp>, n: nat, table: seq<TurnRow>)
    requires InOrder(ops) && n < |ops| && Grounded(table, ops, n)
    ensures Select(table, OfRequest(ops[n].row.request)) == []
  {
    hide Select;
    var row := ops[n].row;
    forall r | r in table ensures !Matches(r, OfRequest(row.request)) {
      var j :| 0 <= j < n && SameIdentity(r, ops[j].row) && ops[j].row.session == Some(r.session);
      assert InOrderAt(ops, n);
    }
    SelectNone(table, OfRequest(row.request));
  }

  /** Of the session's writes before the n-th, each fits or is lost unseen. */
  ghost predicate BearableUpTo(ops: seq<WriteOp>, n: nat, session: string)
    requires n <= |ops|
  {
    && |RowsOf(ops[..n], session)| <= |RowsOf(ops, session)|
    && Bearable(RowsOf(ops, session), |RowsOf(ops[..n], session)|)
  }

  /** The run's account of one session after `n` writes. */
  ghost predicate Accounts(ops: seq<WriteOp>, n: nat, session: string, table: seq<TurnRow>)
    requires n <= |ops|
  {
    && |RowsOf(ops[..n], session)| <= |RowsOf(ops, session)|
    && Select(table, OfSession(session)) == Stored(RowsOf(ops, session), |RowsOf(ops[..n], session)|)
  }

  /** A write that fits inserts exactly what is due; one that does not changes nothing. */
  lemma OneMoreWrite(ops: seq<WriteOp>, n: nat, table: seq<TurnRow>)
    requires InOrder(ops) && n < |ops| && SessionOf(ops[n].row) != "" && BearableUpTo(ops, n, SessionOf(ops[n].row))
    requires Grounded(table, ops, n) && Accounts(ops, n, SessionOf(ops[n].row), table)
    ensures (var rows, m := RowsOf(ops, SessionOf(ops[n].row)), |RowsOf(ops[..n], SessionOf(ops[n].row))|;
             m < |rows| && AfterWrite(table, ops[n].log, ops[n].row) == table + Landed(rows, m))
  {
    hide Select, Stored, BatchFor, Batch, OwnRows, SupplementRows, Fits, Insertable, PrevRequest, RowsOf, Grounded,
         IsSession, Invisible, OwnDue;
    var row, session := ops[n].row, SessionOf(ops[n].row);
    var rows, m := RowsOf(ops, session), |RowsOf(ops[..n], session)|;
    NextRowOfSession(ops, n);
    RowsOfIsSession(ops, session);
    PredecessorIsFound(ops, n);
    BatchIsDue(rows, m, session, table, ops[n].log);
    NothingOfIts(ops, n, table);
    if m > 0 {
      assert rows[m - 1] in rows;
      RequestWithinSession(table, ops, n, rows[m - 1]);
      RowsOfRequest(rows, m, session, m - 1);
      assert LandedOwn(rows, m - 1) + [] == LandedOwn(rows, m - 1);
      if !Fits(rows, m - 1) {
        InvisibleOwesOneRow(rows, m - 1);
      }
    }
    WriteLandsExactlyWhenItFits(rows, m, session, table);
    assert table + [] == table;
  }

  lemma GroundedGrows(a: seq<TurnRow>, b: seq<TurnRow>, ops: seq<WriteOp>, n: nat)
    requires n < |ops| && Grounded(a, ops, n) && Grounded(b, ops, n + 1)
    ensures Grounded(a + b, ops, n + 1)
  {
    forall r | r in a + b
      ensures exists j :: 0 <= j < n + 1 && SameIdentity(r, ops[j].row) && ops[j].row.session == Some(r.session)
    {
      if r in a {
        var j :| 0 <= j < n && SameIdentity(r, ops[j].row) && ops[j].row.session == Some(r.session);
        assert j < n + 1;
      }
    }
  }

  /** The session's own next write keeps its account. */
  lemma AccountsAfterWrite(ops: seq<WriteOp>, k: nat, table: seq<TurnRow>)
    requires InOrder(ops) && k < |ops| && SessionOf(ops[k].row) != "" && BearableUpTo(ops, k, SessionOf(ops[k].row))
    requires Grounded(table, ops, k) && Accounts(ops, k, SessionOf(ops[k].row), table)
    ensures Accounts(ops, k + 1, SessionOf(ops[k].row), AfterWrite(table, ops[k].log, ops[k].row))
  {
    hide Select, Batch, AfterWrite, BatchFor, Grounded, InOrder, Fits, RowsOf, Bearable;
    var s := SessionOf(ops[k].row);
    var rows, m := RowsOf(ops, s), |RowsOf(ops[..k], s)|;
    OneMoreWrite(ops, k, table);
    NextRowOfSession(ops, k);
    SelectConcat(table, Landed(rows, m), OfSession(s));
    LandedIsOfSession(ops, s, m);
    SelectAll(Landed(rows, m), OfSession(s));
  }

  lemma LandedIsOfSession(ops: seq<WriteOp>, session: string, m: nat)
    requires m < |RowsOf(ops, session)|
    ensures forall r :: r in Landed(RowsOf(ops, session), m) ==> r.session == session
  {
    hide OwnDue, SupplementDue, Fits;
    var rows := RowsOf(ops, session);
    assert rows[m] in rows;
    RowsAtIdentity(rows[m], 0, OwnDue(rows, m));
    if m > 0 {
      assert rows[m - 1] in rows;
      RowsAtIdentity(rows[m - 1], SUPPLEMENT_SEQ_BASE, SupplementDue(rows, m - 1));
    }
  }

  /** Another session's write, landed or not, leaves a session's account as it was. */
  lemma AccountsAfterOther(ops: seq<WriteOp>, k: nat, session: string, table: seq<TurnRow>)
    requires InOrder(ops) && k < |ops| && SessionOf(ops[k].row) != "" && SessionOf(ops[k].row) != session
    requires Grounded(table, ops, k) && Accounts(ops, k, session, table)
    ensures Accounts(ops, k + 1, session, AfterWrite(table, ops[k].log, ops[k].row))
  {
    hide Select, BatchFor, Grounded, InOrder, RowsOf, Stored;
    var batch := BatchFor(table, ops[k].log, ops[k].row);
    WriteIsGrounded(ops, k, table);
    RowsOfOneMore(ops, k, session);
    SelectConcat(table, batch, OfSession(session));
    SelectNone(batch, OfSession(session));
  }

  lemma {:induction false} RunIsGrounded(ops: seq<WriteOp>, n: nat)
    requires InOrder(ops) && n <= |ops|
    ensures Grounded(Run(ops[..n]), ops, n)
  {
    hide AfterWrite, Grounded, InOrder;
    if n == 0 {
      assert ops[..0] == [];
      NothingIsGroundedAt(ops, 0);
    } else {
      var k := n - 1;
      RunOneMore(ops, k);
      RunIsGrounded(ops, k);
      if SessionOf(ops[k].row) == "" {
        NoSessionNoWrite(Run(ops[..k]), ops[k].log, ops[k].row);
        NothingIsGroundedAt(ops, n);
        GroundedGrows(Run(ops[..k]), [], ops, k);
        assert Run(ops[..k]) + [] == Run(ops[..k]);
      } else {
        WriteIsGrounded(ops, k, Run(ops[..k]));
      }
    }
  }

  lemma RunOneMore(ops: seq<WriteOp>, k: nat)
    requires k < |ops|
    ensures Run(ops[..k + 1]) == AfterWrite(Run(ops[..k]), ops[k].log, ops[k].row)
  {
    assert ops[..k + 1][..k] == ops[..k];
  }

  /**
   Whatever happens to other sessions, the table holds exactly the rows of this
   one's writes that fitted, as long as no loss so far can be seen.
   */
  lemma {:induction false} RunInvariant(ops: seq<WriteOp>, n: nat, session: string)
    requires InOrder(ops) && n <= |ops| && session != "" && BearableUpTo(ops, n, session)
    ensures Accounts(ops, n, session, Run(ops[..n]))
    decreases n
  {
    hide Select, Stored, AfterWrite, Grounded, InOrder, RowsOf, Fits, Invisible, Run;
    if n == 0 {
      NothingWritten(ops, session);
    } else {
      var k := n - 1;
      RowsOfOneMore(ops, k, session);
      RunInvariant(ops, k, session);
      RunIsGrounded(ops, k);
      RunOneMore(ops, k);
      if SessionOf(ops[k].row) == "" {
        NoSessionNoWrite(Run(ops[..k]), ops[k].log, ops[k].row);
      } else if SessionOf(ops[k].row) == session {
        AccountsAfterWrite(ops, k, Run(ops[..k]));
      } else {
        AccountsAfterOther(ops, k, session, Run(ops[..k]));
      }
    }
  }

  lemma NothingWritten(ops: seq<WriteOp>, session: string)
    ensures Accounts(ops, 0, session, Run(ops[..0]))
  {
    assert ops[..0] == [];
    SelectNone([], OfSession(session));
  }

  lemma NothingIsGroundedAt(ops: seq<WriteOp>, n: nat)
    requires n <= |ops|
    ensures Grounded([], ops, n)
  {
  }

  lemma NoSessionNoWrite(table: seq<TurnRow>, log: seq<LogRow>, row: LogRow)
    requires SessionOf(row) == ""
    ensures AfterWrite(table, log, row) == table
  {
  }

  // ----- The effective system entry of a block -----

  /** The first timeline entry recorded on a request. */
  function EntryOf(t: seq<SystemEntry>, request: string): Option<SystemEntry> {
    if t == [] then None
    else if EntryOf(t[..|t| - 1], request).Some? then EntryOf(t[..|t| - 1], request)
    else if t[|t| - 1].seenAt == request then Some(t[|t| - 1])
    else None
  }

  /** effectiveSystemIndices: each request with an entry moves the cursor, the others inherit it. */
  function EffectiveAfter(t: seq<SystemEntry>, rows: seq<LogRow>, n: nat): Option<SystemEntry>
    requires n <= |rows|
  {
    if n == 0 then None
    else if EntryOf(t, rows[n - 1].request).Some? then EntryOf(t, rows[n - 1].request)
    else EffectiveAfter(t, rows, n - 1)
  }

  lemma EntryOfOneMore(t: seq<SystemEntry>, e: SystemEntry, request: string)
    ensures EntryOf(t + [e], request)
         == if EntryOf(t, request).Some? then EntryOf(t, request) else if e.seenAt == request then Some(e) else None
  {
    assert (t + [e])[..|t|] == t;
  }

  /** A request's entry is the one its own turn recorded, if it recorded any. */
  lemma {:induction false} EntryOfRequest(rows: seq<LogRow>, session: string, n: nat, i: nat)
    requires IsSession(rows, session) && n <= |rows| && i < |rows|
    ensures EntryOf(Timeline(TurnsOf(rows), n), rows[i].request)
         == if i < n && Records(TurnsOf(rows), i) then LastEntry(Timeline(TurnsOf(rows), i + 1)) else None
  {
    hide TurnsOf, EntryOf, Changes;
    if n > 0 {
      EntryOfRequest(rows, session, n - 1, i);
      var ts := TurnsOf(rows);
      if Records(ts, n - 1) {
        var e := Timeline(ts, n)[|Timeline(ts, n)| - 1];
        EntryOfOneMore(Timeline(ts, n - 1), e, rows[i].request);
        assert Timeline(ts, n) == Timeline(ts, n - 1) + [e];
        assert rows[i].request == rows[n - 1].request <==> i == n - 1;
      }
    } else {
      EntryOfNothing(rows[i].request);
    }
  }

  lemma EntryOfNothing(request: string)
    ensures EntryOf([], request) == None
  {
  }

  lemma {:induction false} EffectiveIsTheLastEntry(rows: seq<LogRow>, session: string, i: nat)
    requires IsSession(rows, session) && i <= |rows|
    ensures EffectiveAfter(Timeline(TurnsOf(rows), |rows|), rows, i) == LastEntry(Timeline(TurnsOf(rows), i))
  {
    hide TurnsOf, EntryOf, Changes;
    if i > 0 {
      EffectiveIsTheLastEntry(rows, session, i - 1);
      EntryOfRequest(rows, session, |rows|, i - 1);
    }
  }

  // ----- The main theorem -----

  /** One block as the transcript materializes it from the rows. */
  function ReadBlock(table: seq<TurnRow>, rows: seq<LogRow>, session: string, i: nat): Block
    requires i < |rows|
  {
    var turns := ListTurns(table, rows[i].request);
    Block(rows[i].request, ReadAdded(turns), EffectiveAfter(ReadTimeline(table, session), rows, i + 1),
          ReadReply(turns, rows[i]), IsCapped(rows[i].body))
  }

  lemma TurnsListInOrder(rows: seq<LogRow>, session: string, i: nat)
    requires IsSession(rows, session) && i < |rows|
    ensures (var listing := LandedOwn(rows, i) + LandedSupplement(rows, i, |rows|);
             Sorted(listing, BySeq) == listing)
  {
    hide OwnDue, SupplementDue, Sorted;
    var listing := LandedOwn(rows, i) + LandedSupplement(rows, i, |rows|);
    assert StrictBySeq(listing);
    SortedIsTheListing(listing, listing);
  }

  lemma {:induction false} EntriesOfSystemRows(sys: seq<TurnRow>, t: seq<SystemEntry>)
    requires |sys| == |t|
    requires forall j :: 0 <= j < |t| ==>
               sys[j].content == SystemContent(j, t[j].raw) && sys[j].request == t[j].seenAt && !t[j].truncated
    ensures EntriesOf(sys) == t
  {
    if sys != [] {
      EntriesOfSystemRows(sys[..|sys| - 1], t[..|t| - 1]);
      assert t == t[..|t| - 1] + [t[|t| - 1]];
    }
  }

  /** All of a session's writes fit or are lost unseen. */
  ghost predicate WholeSession(ops: seq<WriteOp>, session: string) {
    InOrder(ops) && session != "" && Bearable(RowsOf(ops, session), |RowsOf(ops, session)|)
  }

  lemma SessionAccount(ops: seq<WriteOp>, session: string)
    requires WholeSession(ops, session)
    ensures (var rows := RowsOf(ops, session);
             IsSession(rows, session) && Select(Run(ops), OfSession(session)) == Stored(rows, |rows|))
  {
    hide Select, Stored, Run, RowsOf, Bearable;
    assert ops[..|ops|] == ops;
    RunInvariant(ops, |ops|, session);
    RowsOfIsSession(ops, session);
  }

  lemma SystemRowsRead(ops: seq<WriteOp>, session: string)
    requires WholeSession(ops, session)
    ensures (var rows := RowsOf(ops, session);
             TypedRows(Run(ops), session, SystemPrompt) == Select(Stored(rows, |rows|), OfType(session, SystemPrompt)))
  {
    hide Select, Stored, Sorted, IsSorted, Run, RowsOf, IsSession, Bearable;
    var rows, w := RowsOf(ops, session), OfType(session, SystemPrompt);
    SessionAccount(ops, session);
    SelectWithin(Run(ops), OfSession(session), w);
    TypedRowsAreOrdered(rows, |rows|, session, SystemPrompt);
    SortedOfSorted(Select(Stored(rows, |rows|), w), BySession);
  }

  lemma TimelineIsReadable(ops: seq<WriteOp>, session: string)
    requires WholeSession(ops, session)
    ensures ReadTimeline(Run(ops), session) == Timeline(TurnsOf(RowsOf(ops, session)), |RowsOf(ops, session)|)
  {
    hide Select, Stored, TurnsOf, Timeline, TypedRows, Run, RowsOf, InOrder, Bearable;
    var rows := RowsOf(ops, session);
    SessionAccount(ops, session);
    SystemRowsRead(ops, session);
    SystemRowsAreTheTimeline(rows, |rows|, session);
    EntriesOfSystemRows(Select(Stored(rows, |rows|), OfType(session, SystemPrompt)), Timeline(TurnsOf(rows), |rows|));
  }

  /** What the store holds for a request once the session is written. */
  lemma StoredTurns(ops: seq<WriteOp>, session: string, i: nat)
    requires WholeSession(ops, session) && i < |RowsOf(ops, session)|
    ensures (var rows := RowsOf(ops, session);
             ListTurns(Run(ops), rows[i].request) == LandedOwn(rows, i) + LandedSupplement(rows, i, |rows|))
  {
    hide Select, Stored, Sorted, Grounded, Run, LandedOwn, LandedSupplement, Bearable, InOrder, IsSession;
    var rows, table := RowsOf(ops, session), Run(ops);
    SessionAccount(ops, session);
    assert ops[..|ops|] == ops;
    RunIsGrounded(ops, |ops|);
    assert rows[i] in rows;
    RequestWithinSession(table, ops, |ops|, rows[i]);
    RowsOfRequest(rows, |rows|, session, i);
    TurnsListInOrder(rows, session, i);
  }

  lemma BlockReadsBack(ops: seq<WriteOp>, session: string, i: nat)
    requires WholeSession(ops, session) && i < |RowsOf(ops, session)|
    ensures ReadBlock(Run(ops), RowsOf(ops, session), session, i) == BlockAt(TurnsOf(RowsOf(ops, session)), i)
  {
    hide TurnsOf, Timeline, Run, ListTurns, ReadTimeline, LandedOwn, LandedSupplement, EffectiveAfter,
         ReadAdded, ReadReply, Attribute, AddedAt, InOrder, Bearable, RowsOf, IsSession;
    var rows := RowsOf(ops, session);
    SessionAccount(ops, session);
    TimelineIsReadable(ops, session);
    StoredTurns(ops, session, i);
    AddedIsReadable(rows, i);
    ReplyIsReadable(rows, i);
    EffectiveIsTheLastEntry(rows, session, i + 1);
  }

  /** What is stored for a session reads back as the pass over it, entry by entry and block by block. */
  ghost predicate ReadsBack(table: seq<TurnRow>, rows: seq<LogRow>, session: string) {
    && ReadTimeline(table, session) == Timeline(TurnsOf(rows), |rows|)
    && forall i :: 0 <= i < |rows| ==> ReadBlock(table, rows, session, i) == BlockAt(TurnsOf(rows), i)
  }

  /**
   For every run of in-order writes and every session in it whose own writes fit,
   or are lost unseen, whatever becomes of other sessions: reading the rows back
   gives what the whole-session pass computes over that session's requests.
   */
  lemma ReadBackIsTheReplay(ops: seq<WriteOp>, session: string)
    requires WholeSession(ops, session)
    ensures ReadsBack(Run(ops), RowsOf(ops, session), session)
  {
    hide WholeSession, ReadTimeline, Timeline, TurnsOf, ReadBlock, BlockAt, Run, RowsOf;
    TimelineIsReadable(ops, session);
    forall i | 0 <= i < |RowsOf(ops, session)|
      ensures ReadBlock(Run(ops), RowsOf(ops, session), session, i) == BlockAt(TurnsOf(RowsOf(ops, session)), i)
    {
      BlockReadsBack(ops, session, i);
    }
  }

  /** The stored timeline is numbered 0..k-1 and never records a value twice in a row. */
  lemma StoredTimelineIsDense(ops: seq<WriteOp>, session: string, j: nat)
    requires WholeSession(ops, session)
    requires j < |TypedRows(Run(ops), session, SystemPrompt)|
    ensures (var sys := TypedRows(Run(ops), session, SystemPrompt);
             && sys[j].content.SystemContent? && sys[j].content.ordinal == j
             && (j + 1 < |sys| ==> sys[j + 1].content.SystemContent? && sys[j + 1].content.raw != sys[j].content.raw))
  {
    hide Select, Stored, TurnsOf, Timeline, TypedRows, Run, RowsOf, InOrder, Bearable;
    var rows := RowsOf(ops, session);
    SessionAccount(ops, session);
    SystemRowsRead(ops, session);
    SystemRowsAreTheTimeline(rows, |rows|, session);
    if j + 1 < |Timeline(TurnsOf(rows), |rows|)| {
      TimelineNeverRepeats(TurnsOf(rows), |rows|, j);
    }
  }

  // ----- The write that does not fit -----

  /**
   The first write of a session that does not fit changes nothing: the request it
   was for is left without a single row, although the engine reports success.
   */
  lemma WriteThatDoesNotFitIsLost(ops: seq<WriteOp>, n: nat)
    requires InOrder(ops) && n < |ops| && SessionOf(ops[n].row) != "" && BearableUpTo(ops, n, SessionOf(ops[n].row))
    requires (var rows, m := RowsOf(ops, SessionOf(ops[n].row)), |RowsOf(ops[..n], SessionOf(ops[n].row))|;
              m < |rows| && !Fits(rows, m))
    ensures Run(ops[..n + 1]) == Run(ops[..n])
    ensures ListTurns(Run(ops[..n + 1]), ops[n].row.request) == []
  {
    hide Select, Run, AfterWrite, RowsOf, Fits, Bearable, Grounded, InOrder;
    RunIsGrounded(ops, n);
    RunInvariant(ops, n, SessionOf(ops[n].row));
    OneMoreWrite(ops, n, Run(ops[..n]));
    RunOneMore(ops, n);
    NothingOfIts(ops, n, Run(ops[..n]));
    assert Run(ops[..n]) + [] == Run(ops[..n]);
  }
}
