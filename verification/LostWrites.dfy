/**
 When the store and the whole-session pass part: exactly when some write of the
 session does not fit and its loss can be seen. What such a write would have
 stored, nothing written later supplies.
 */
module LostWrites {
  import opened Wrappers
  import opened Json
  import opened Classify
  import opened Replay
  import opened Derive
  import opened Rows
  import opened TurnStore
  import opened Parity
  import opened SessionRuns

  // ----- What a lost write leaves missing -----

  /** Request `m` holds no input and no system value, and its predecessor no supplement. */
  ghost predicate Missing(table: seq<TurnRow>, rows: seq<LogRow>, m: nat)
    requires 0 < m < |rows|
  {
    && (forall r :: r in table && r.request == rows[m].request ==> r.eventType == AssistantReply || r.eventType == ToolCall)
    && (forall r :: r in table && r.request == rows[m - 1].request ==> !IsSupplementReply(r))
  }

  /** Where in the run a session's request was written. */
  lemma {:induction false} WriteOf(ops: seq<WriteOp>, session: string, m: nat) returns (p: nat)
    requires m < |RowsOf(ops, session)|
    ensures p < |ops| && ops[p].row == RowsOf(ops, session)[m] && |RowsOf(ops[..p], session)| == m
  {
    var k := |ops| - 1;
    if m < |RowsOf(ops[..k], session)| {
      p := WriteOf(ops[..k], session, m);
      assert ops[..k][..p] == ops[..p];
    } else {
      p := k;
    }
  }

  /** When the write of request `m` is lost, its rows and its predecessor's supplement are missing. */
  lemma MissingAtTheLoss(ops: seq<WriteOp>, p: nat, session: string)
    requires InOrder(ops) && p < |ops| && session != "" && ops[p].row.session == Some(session)
    requires BearableUpTo(ops, p, session)
    requires (var rows, m := RowsOf(ops, session), |RowsOf(ops[..p], session)|;
              0 < m < |rows| && !Fits(rows, m) && rows[m] == ops[p].row)
    ensures Missing(Run(ops[..p + 1]), RowsOf(ops, session), |RowsOf(ops[..p], session)|)
  {
    hide Select, Stored, Run, Fits, Bearable, Grounded, InOrder, IsSession, RowsOf, OwnRows, IsSupplementReply;
    var rows, m, table := RowsOf(ops, session), |RowsOf(ops[..p], session)|, Run(ops[..p]);
    WriteThatDoesNotFitIsLost(ops, p);
    RunIsGrounded(ops, p);
    NothingOfIts(ops, p, table);
    SelectIn(table, OfRequest(rows[m].request));
    RunInvariant(ops, p, session);
    RowsOfIsSession(ops, session);
    assert rows[m - 1] in rows;
    RequestWithinSession(table, ops, p, rows[m - 1]);
    RowsOfRequest(rows, m, session, m - 1);
    assert LandedOwn(rows, m - 1) + [] == LandedOwn(rows, m - 1);
    SelectIn(table, OfRequest(rows[m - 1].request));
    OwnRowsHoldNoSupplement(rows, m - 1);
  }

  /** Only the request right after `m - 1` in its session could supplement it, and only `m` itself could own rows of `m`. */
  lemma LaterWritesSupplyNothing(ops: seq<WriteOp>, p: nat, q: nat, session: string, r: TurnRow)
    requires InOrder(ops) && p < q < |ops| && session != "" && ops[p].row.session == Some(session)
    requires SessionOf(ops[q].row) != ""
    requires (var rows, m := RowsOf(ops, session), |RowsOf(ops[..p], session)|;
              0 < m < |rows| && rows[m] == ops[p].row)
    requires r in BatchFor(Run(ops[..q]), ops[q].log, ops[q].row)
    ensures (var rows, m := RowsOf(ops, session), |RowsOf(ops[..p], session)|;
             && (r.request == rows[m].request ==> r.eventType == AssistantReply || r.eventType == ToolCall)
             && r.request != rows[m - 1].request)
  {
    hide DerivedFor, Run, BatchRows, PrevRequest, InOrderAt, RowsOf, IsSession;
    var rows, m, row := RowsOf(ops, session), |RowsOf(ops[..p], session)|, ops[q].row;
    var prev, events := PrevRequest(ops[q].log, row), DerivedFor(Run(ops[..q]), ops[q].log, row);
    RowsOfBatchAreTagged(row, prev, events, r);
    DerivedIsTagged(Run(ops[..q]), ops[q].log, row);
    RowsOfIsSession(ops, session);
    EarlierOp(ops, p, session, m - 1);
    LaterRequestDiffers(ops, p, q);
    if r.request == rows[m - 1].request {
      PredecessorComesLater(ops, p, q, session);
    }
  }

  lemma EarlierOp(ops: seq<WriteOp>, p: nat, session: string, i: nat)
    requires p <= |ops| && i < |RowsOf(ops[..p], session)|
    ensures i < |RowsOf(ops, session)|
    ensures exists j :: 0 <= j < p && ops[j].row == RowsOf(ops, session)[i]
  {
    hide RowsOf;
    RowsOfPrefix(ops, p, session);
    assert RowsOf(ops[..p], session)[i] in RowsOf(ops[..p], session);
    var j :| 0 <= j < |ops[..p]| && ops[..p][j].row == RowsOf(ops[..p], session)[i];
    assert ops[j].row == RowsOf(ops, session)[i];
  }

  lemma LaterRequestDiffers(ops: seq<WriteOp>, p: nat, q: nat)
    requires InOrder(ops) && p < q < |ops|
    ensures forall j :: 0 <= j <= p ==> ops[j].row.request != ops[q].row.request
  {
    assert InOrderAt(ops, q);
  }

  /** A later write's predecessor is not the request before `p`'s. */
  lemma PredecessorComesLater(ops: seq<WriteOp>, p: nat, q: nat, session: string)
    requires InOrder(ops) && p < q < |ops| && session != "" && ops[p].row.session == Some(session)
    requires SessionOf(ops[q].row) != ""
    requires 0 < |RowsOf(ops[..p], session)| < |RowsOf(ops, session)|
    ensures (var prev := PrevRequest(ops[q].log, ops[q].row);
             prev.Some? ==> prev.value.request != RowsOf(ops, session)[|RowsOf(ops[..p], session)| - 1].request)
  {
    hide RowsOf, PrevRequest, InOrderAt, IsSession;
    var theirs, m := SessionOf(ops[q].row), |RowsOf(ops[..p], session)|;
    var mine, rows := RowsOf(ops, session), RowsOf(ops, theirs);
    var n := |RowsOf(ops[..q], theirs)|;
    PredecessorIsFound(ops, q);
    if n > 0 && rows[n - 1].request == mine[m - 1].request {
      EarlierOp(ops, q, theirs, n - 1);
      EarlierOp(ops, p, session, m - 1);
      var i :| 0 <= i < q && ops[i].row == rows[n - 1];
      var j :| 0 <= j < p && ops[j].row == mine[m - 1];
      RequestIdsAreUnique(ops, i, j);
      assert rows[n - 1] in rows && mine[m - 1] in mine;
      assert theirs == session;
      RowsOfIsSession(ops, session);
      IdsFindPlaces(mine, session, n - 1, m - 1);
      CountGrows(ops, p, q, session);
    }
  }

  lemma IdsFindPlaces(rows: seq<LogRow>, session: string, i: nat, j: nat)
    requires IsSession(rows, session) && i < |rows| && j < |rows| && rows[i].request == rows[j].request
    ensures i == j
  {
  }

  lemma CountGrows(ops: seq<WriteOp>, p: nat, q: nat, session: string)
    requires p < q <= |ops| && ops[p].row.session == Some(session)
    ensures |RowsOf(ops[..q], session)| > |RowsOf(ops[..p], session)|
  {
    hide RowsOf;
    RowsOfOneMore(ops, p, session);
    RowsOfPrefix(ops[..q], p + 1, session);
    assert ops[..q][..p + 1] == ops[..p + 1];
  }

  /** What is missing after a lost write stays missing, whatever is written later. */
  lemma {:induction false} MissingForever(ops: seq<WriteOp>, p: nat, n: nat, session: string)
    requires InOrder(ops) && p < n <= |ops| && session != "" && ops[p].row.session == Some(session)
    requires BearableUpTo(ops, p, session)
    requires (var rows, m := RowsOf(ops, session), |RowsOf(ops[..p], session)|;
              0 < m < |rows| && !Fits(rows, m) && rows[m] == ops[p].row)
    ensures Missing(Run(ops[..n]), RowsOf(ops, session), |RowsOf(ops[..p], session)|)
    decreases n
  {
    hide Run, Fits, InOrder, RowsOf, IsSupplementReply, BearableUpTo, BatchFor;
    if n == p + 1 {
      MissingAtTheLoss(ops, p, session);
    } else {
      var q := n - 1;
      MissingForever(ops, p, q, session);
      RunOneMore(ops, q);
      if SessionOf(ops[q].row) == "" {
        NoSessionNoWrite(Run(ops[..q]), ops[q].log, ops[q].row);
      } else {
        forall r | r in BatchFor(Run(ops[..q]), ops[q].log, ops[q].row)
          ensures (var rows, m := RowsOf(ops, session), |RowsOf(ops[..p], session)|;
                   && (r.request == rows[m].request ==> r.eventType == AssistantReply || r.eventType == ToolCall)
                   && r.request != rows[m - 1].request)
        {
          LaterWritesSupplyNothing(ops, p, q, session, r);
        }
      }
    }
  }

  // ----- What is missing shows -----

  lemma RowsRead(table: seq<TurnRow>, request: string)
    ensures forall r :: r in ListTurns(table, request) <==> r in table && r.request == request
  {
    var chosen := Select(table, OfRequest(request));
    SelectIn(table, OfRequest(request));
    SortedIsPermutation(chosen, BySeq);
    forall r ensures r in Sorted(chosen, BySeq) <==> r in chosen {
      assert r in Sorted(chosen, BySeq) <==> r in multiset(Sorted(chosen, BySeq));
      assert r in chosen <==> r in multiset(chosen);
    }
  }

  lemma SystemRowsAreOfTheTable(table: seq<TurnRow>, session: string)
    ensures forall r :: r in TypedRows(table, session, SystemPrompt) ==> r in table && r.eventType == SystemPrompt
  {
    var chosen := Select(table, OfType(session, SystemPrompt));
    SelectIn(table, OfType(session, SystemPrompt));
    SortedIsPermutation(chosen, BySession);
    forall r | r in Sorted(chosen, BySession) ensures r in chosen {
      assert r in multiset(Sorted(chosen, BySession));
      assert r in multiset(chosen);
    }
  }

  lemma {:induction false} EntriesNameTheirRows(rows: seq<TurnRow>, request: string)
    requires forall r :: r in rows ==> r.request != request
    ensures EntryOf(EntriesOf(rows), request) == None
  {
    if rows != [] {
      hide EntryOf;
      var init, last := rows[..|rows| - 1], rows[|rows| - 1];
      assert last in rows;
      EntriesNameTheirRows(init, request);
      if last.content.SystemContent? {
        EntryOfOneMore(EntriesOf(init), SystemEntry(last.request, false, last.content.raw), request);
      } else {
        assert EntriesOf(init) + [] == EntriesOf(init);
      }
    } else {
      EntryOfNothing(request);
    }
  }

  /** The three ways a loss shows: an added message, a system entry, a reply that is gone. */
  lemma MissingShows(table: seq<TurnRow>, rows: seq<LogRow>, session: string, m: nat)
    requires IsSession(rows, session) && 0 < m < |rows| && !Fits(rows, m) && Missing(table, rows, m) && !Invisible(rows, m)
    ensures !ReadsBack(table, rows, session)
  {
    hide TurnsOf, ReadTimeline, EffectiveAfter, Fits, ListTurns, Timeline, AddedAt, Changes, ReadAdded, ReadReply,
         IsSupplementReply, StreamOf, Attribute, IsSession;
    if Records(TurnsOf(rows), m) {
      MissingEntryShows(table, rows, session, m);
    } else if AddedAt(TurnsOf(rows), m) != [] {
      MissingInputsRead(table, rows, m);
      assert ReadBlock(table, rows, session, m).added != BlockAt(TurnsOf(rows), m).added;
    } else {
      MissingReplyRead(table, rows, m);
      assert ReadBlock(table, rows, session, m - 1).assistant != BlockAt(TurnsOf(rows), m - 1).assistant;
    }
  }

  lemma MissingEntryShows(table: seq<TurnRow>, rows: seq<LogRow>, session: string, m: nat)
    requires IsSession(rows, session) && 0 < m < |rows| && Missing(table, rows, m) && Records(TurnsOf(rows), m)
    ensures ReadTimeline(table, session) != Timeline(TurnsOf(rows), |rows|)
  {
    hide TurnsOf, TypedRows, Changes, EntryOf, IsSession, IsSupplementReply;
    EntryOfRequest(rows, session, |rows|, m);
    SystemRowsAreOfTheTable(table, session);
    EntriesNameTheirRows(TypedRows(table, session, SystemPrompt), rows[m].request);
    assert Timeline(TurnsOf(rows), m + 1) != [];
  }

  lemma MissingInputsRead(table: seq<TurnRow>, rows: seq<LogRow>, m: nat)
    requires 0 < m < |rows| && Missing(table, rows, m)
    ensures ReadAdded(ListTurns(table, rows[m].request)) == []
  {
    hide ListTurns, ReadAdded, IsSupplementReply;
    var turns := ListTurns(table, rows[m].request);
    RowsRead(table, rows[m].request);
    ReadAddedOfConcat([], turns);
    ReadAddedOfNone();
    assert [] + turns == turns;
  }

  lemma MissingReplyRead(table: seq<TurnRow>, rows: seq<LogRow>, m: nat)
    requires 0 < m < |rows| && !Fits(rows, m) && Missing(table, rows, m) && StreamOf(rows[m - 1]).text == ""
    ensures ReadReply(ListTurns(table, rows[m - 1].request), rows[m - 1]).source == Unrecorded
    ensures (var copies := CopiesAt(TurnsOf(rows), m);
             Attribute(rows[m - 1].response, StreamOf(rows[m - 1]), copies) == Assistant(Resend, false, Copies(copies)))
  {
    hide ListTurns, IsSupplementReply, Fits, TurnsOf;
    RowsRead(table, rows[m - 1].request);
    NoSupplementReply(ListTurns(table, rows[m - 1].request));
    UnfitCarriesCopies(rows, m);
  }

  // ----- Exactly when the two agree -----

  /** The first write whose loss shows. */
  lemma {:induction false} FirstUnbearable(rows: seq<LogRow>, n: nat) returns (m: nat)
    requires n <= |rows| && !Bearable(rows, n)
    ensures m < n && Bearable(rows, m) && !Fits(rows, m) && m > 0 && !Invisible(rows, m)
  {
    hide Fits, Invisible;
    if Bearable(rows, n - 1) {
      m := n - 1;
      UnfitCarriesCopies(rows, m);
    } else {
      m := FirstUnbearable(rows, n - 1);
    }
  }

  /**
   Over every in-order run, with any number of sessions and of losses anywhere in
   it: a session reads back as the whole-session pass over its requests if and
   only if each of its writes fits, or shows nothing of its own while its
   predecessor's reply was recorded as a stream.
   */
  lemma ParityExactlyWhen(ops: seq<WriteOp>, session: string)
    requires InOrder(ops) && session != ""
    ensures (var rows := RowsOf(ops, session);
             ReadsBack(Run(ops), rows, session)
             <==> forall k :: 0 <= k < |rows| ==> Fits(rows, k) || (k > 0 && Invisible(rows, k)))
  {
    hide Fits, Run, InOrder, RowsOf, Invisible, ReadsBack, Missing;
    var rows := RowsOf(ops, session);
    if Bearable(rows, |rows|) {
      ReadBackIsTheReplay(ops, session);
    } else {
      var m := FirstUnbearable(rows, |rows|);
      var p := WriteOf(ops, session, m);
      assert rows[m] in rows;
      RowsOfIsSession(ops, session);
      MissingForever(ops, p, |ops|, session);
      assert ops[..|ops|] == ops;
      MissingShows(Run(ops), rows, session, m);
    }
  }

  // ----- A session in which that happens -----

  const TOOL_MESSAGE := Obj(map["role" := Str("tool")])
  const REPLY_COPY := Obj(map["role" := Str("assistant")])

  function ToolMessages(n: nat): (ms: seq<Json>)
    ensures |ms| == n && forall i :: 0 <= i < n ==> ms[i] == TOOL_MESSAGE
  {
    seq(n, i => TOOL_MESSAGE)
  }

  function RequestOf(id: string, at: int, ms: seq<Json>): LogRow {
    LogRow(Some("s"), id, 0, at, RequestBody(1, Some(map["messages" := Arr(ms)])),
           Capture("", false), "", Capture("", false))
  }

  /** The second request resends the first one's messages and a copy of its reply. */
  function Overflowing(n: nat): seq<LogRow> {
    [RequestOf("a", 0, ToolMessages(n)), RequestOf("b", 1, ToolMessages(n) + [REPLY_COPY])]
  }

  lemma OneToolMessage()
    ensures Split(TOOL_MESSAGE) == [TOOL_MESSAGE] && RoleOf(TOOL_MESSAGE) == "tool"
    ensures Kept(FRESH, [TOOL_MESSAGE]) == [TOOL_MESSAGE] && After(FRESH, [TOOL_MESSAGE]) == FRESH
  {
    assert [TOOL_MESSAGE][..0] == [];
  }

  lemma NoToolMessages()
    ensures Elements([]) == [] && Kept(FRESH, []) == [] && After(FRESH, []) == FRESH
  {
  }

  lemma {:induction false} ToolMessagesAllCount(n: nat)
    ensures Elements(ToolMessages(n)) == ToolMessages(n)
    ensures Kept(FRESH, ToolMessages(n)) == ToolMessages(n)
    ensures After(FRESH, ToolMessages(n)) == FRESH
  {
    hide Split, Kept, After, Elements, RoleOf;
    if n == 0 {
      NoToolMessages();
    } else {
      var init, one := ToolMessages(n - 1), [TOOL_MESSAGE];
      ToolMessagesAllCount(n - 1);
      OneToolMessage();
      assert ToolMessages(n) == init + one;
      ElementsOfOneMore(init, TOOL_MESSAGE);
      FoldOfConcat(FRESH, init, one);
    }
  }

  lemma ParsedOverflowing(n: nat)
    requires n > 0
    ensures var parsed0, parsed1 := ParsedAt(InputsOf(Overflowing(n)), 0), ParsedAt(InputsOf(Overflowing(n)), 1);
            && parsed0.messages == ToolMessages(n)
            && parsed1.messages == ToolMessages(n) + [REPLY_COPY]
  {
    hide OfRole;
    var inputs := InputsOf(Overflowing(n));
    assert inputs[0] == InputOf(Overflowing(n)[0]) && inputs[1] == InputOf(Overflowing(n)[1]);
  }

  /** From 1024 tool results on, the successor's write does not fit. */
  lemma OverflowDoesNotFit(n: nat)
    requires n >= SUPPLEMENT_SEQ_BASE
    ensures IsSession(Overflowing(n), "s") && !Fits(Overflowing(n), 1)
  {
    hide Parse, Elements, OfRole, Kept, ElementPayloads, PrefixFrom, BaselineOfTimeline, ToolCallPayloads,
         ToolMessages, After;
    var rows, ms := Overflowing(n), ToolMessages(n);
    var inputs := InputsOf(rows);
    ParsedOverflowing(n);
    assert TurnsOf(rows)[0] == TurnAt(inputs, 0) && TurnsOf(rows)[1] == TurnAt(inputs, 1);
    ToolMessagesAllCount(n);
    ElementPayloadsLength(ms);
    assert ms[PrefixLen([], ms)..] == ms;
    assert FoldAt(TurnsOf(rows), 0) == FRESH;
    assert |OwnDue(rows, 0)| >= n + 1;
    assert (ms + [REPLY_COPY])[..n] == ms[..n];
    PrefixIsLongestShared(ms, ms + [REPLY_COPY], n);
    assert NewSuffix(ms, ms + [REPLY_COPY]) == [REPLY_COPY];
    CopiesOfOneMore([], REPLY_COPY);
    assert [] + [REPLY_COPY] == [REPLY_COPY];
    NoCopies();
  }

  function OverflowingRun(n: nat): seq<WriteOp> {
    [WriteOp(Overflowing(n)[0], Overflowing(n)[..1]), WriteOp(Overflowing(n)[1], Overflowing(n))]
  }

  lemma OverflowingRunIsInOrder(n: nat)
    ensures InOrder(OverflowingRun(n))
    ensures RowsOf(OverflowingRun(n), "s") == Overflowing(n)
  {
    hide ToolMessages, RowsOf;
    var ops := OverflowingRun(n);
    assert ops[..0] == [] && ops[..1] == [ops[0]] && ops[..2] == ops;
    assert ops[..1][..0] == [];
    RowsOfOneMore(ops, 0, "s");
    RowsOfOneMore(ops, 1, "s");
    NothingWrittenYet("s");
    OverflowingWritesInOrder(n);
  }

  lemma NothingWrittenYet(session: string)
    ensures RowsOf([], session) == []
  {
  }

  lemma OverflowingWritesInOrder(n: nat)
    requires RowsOf(OverflowingRun(n)[..0], "s") == [] && RowsOf(OverflowingRun(n)[..1], "s") == [Overflowing(n)[0]]
    ensures InOrderAt(OverflowingRun(n), 0) && InOrderAt(OverflowingRun(n), 1)
  {
    hide ToolMessages, RowsOf;
    var ops := OverflowingRun(n);
    assert ops[0].row.request == "a" && ops[1].row.request == "b";
  }

  /**
   Without the fit the two halves part: the pass promotes the resent copy to the
   first request's reply, the transcript shows that reply as unrecorded.
   */
  lemma ParityNeedsTheFit(n: nat)
    requires n >= SUPPLEMENT_SEQ_BASE
    ensures (var ops, rows := OverflowingRun(n), Overflowing(n);
             && InOrder(ops) && RowsOf(ops, "s") == rows && !ReadsBack(Run(ops), rows, "s")
             && ReadBlock(Run(ops), rows, "s", 0).assistant.source == Unrecorded
             && BlockAt(TurnsOf(rows), 0).assistant == Assistant(Resend, false, Copies(TurnsOf(rows)[1].brings.copies)))
  {
    hide Run, ListTurns, TurnsOf, RowsOf, AddedAt, EffectiveAfter, ReadTimeline, Timeline, ReadAdded, InOrder, Fits,
         ToolMessages, Missing, ReadsBack, ReadReply, Attribute;
    var ops, rows := OverflowingRun(n), Overflowing(n);
    OverflowingRunIsInOrder(n);
    OverflowDoesNotFit(n);
    assert !Invisible(rows, 1);
    ParityExactlyWhen(ops, "s");
    OneWrittenBefore(n);
    assert ops[..2] == ops;
    MissingForever(ops, 1, 2, "s");
    MissingReplyRead(Run(ops), rows, 1);
  }

  lemma OneWrittenBefore(n: nat)
    requires n >= SUPPLEMENT_SEQ_BASE
    ensures RowsOf(OverflowingRun(n)[..1], "s") == [Overflowing(n)[0]]
    ensures BearableUpTo(OverflowingRun(n), 1, "s")
  {
    hide ToolMessages, OwnDue, SupplementDue;
    OverflowingRunIsInOrder(n);
    var ops := OverflowingRun(n);
    assert ops[..0] == [] && ops[..1][..0] == [];
    RowsOfOneMore(ops, 0, "s");
  }

  lemma NoCopies()
    ensures OfRole([], "assistant") == []
  {
  }
}
