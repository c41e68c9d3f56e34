/**
 The incremental form refines the whole-session pass: requests written one by
 one through the store, then read back, give the blocks and the timeline that
 AssembleAgentSessionReplay computes over the session at once.
 */
module Parity {
  import opened Wrappers
  import opened Json
  import opened Classify
  import opened Replay
  import opened Derive
  import opened Rows
  import opened TurnStore

  // ----- One session -----

  function InputOf(row: LogRow): ReplayInput {
    ReplayInput(row.request, row.body, IsCapped(row.body), row.response, StreamOf(row))
  }

  function InputsOf(rows: seq<LogRow>): (inputs: seq<ReplayInput>)
    ensures |inputs| == |rows|
    ensures forall i :: 0 <= i < |rows| ==> inputs[i] == InputOf(rows[i])
  {
    seq(|rows|, i requires 0 <= i < |rows| => InputOf(rows[i]))
  }

  function TurnsOf(rows: seq<LogRow>): (ts: seq<Turn>)
    ensures |ts| == |rows|
    ensures forall i :: 0 <= i < |rows| ==> ts[i].input == InputOf(rows[i])
  {
    Turns(InputsOf(rows))
  }

  /** The requests of one session in session order, each with an id of its own. */
  predicate IsSession(rows: seq<LogRow>, session: string) {
    && session != ""
    && (forall i :: 0 <= i < |rows| ==> rows[i].session == Some(session))
    && (forall i, j :: 0 <= i < j < |rows| ==> Earlier(rows[i], rows[j]))
    && (forall i, j :: 0 <= i < j < |rows| ==> rows[i].request != rows[j].request)
  }

  function BaselineOfTimeline(t: seq<SystemEntry>): SystemBaseline {
    if t == [] then SystemBaseline(None, 0) else SystemBaseline(Some(t[|t| - 1].raw), |t|)
  }

  /** The own events request `i` is due, by the pass's account of the session before it. */
  function OwnDue(rows: seq<LogRow>, i: nat): seq<Payload>
    requires i < |rows|
  {
    var ts := TurnsOf(rows);
    OwnPayloads(ts[i].brings, BaselineOfTimeline(Timeline(ts, i)), FoldAt(ts, i), OwnSource(OwnOf(rows[i])))
  }

  /** The supplement request `i` is due from its successor. */
  function SupplementDue(rows: seq<LogRow>, i: nat): seq<Payload>
    requires i < |rows|
  {
    if i + 1 < |rows| then SupplementPayloads(TurnsOf(rows)[i + 1].brings.copies, true, HasInline(rows[i])) else []
  }

  function RowsAt(row: LogRow, base: nat, ps: seq<Payload>): (out: seq<TurnRow>)
    ensures |out| == |ps|
    ensures forall k :: 0 <= k < |ps| ==>
              out[k] == TurnRow(SessionOf(row), row.request, row.pk, row.createdAt, base + k,
                                ps[k].eventType, ps[k].content)
  {
    seq(|ps|, k requires 0 <= k < |ps| =>
      TurnRow(SessionOf(row), row.request, row.pk, row.createdAt, base + k, ps[k].eventType, ps[k].content))
  }

  function OwnRows(rows: seq<LogRow>, i: nat): seq<TurnRow>
    requires i < |rows|
  {
    RowsAt(rows[i], 0, OwnDue(rows, i))
  }

  function SupplementRows(rows: seq<LogRow>, i: nat): seq<TurnRow>
    requires i < |rows|
  {
    RowsAt(rows[i], SUPPLEMENT_SEQ_BASE, SupplementDue(rows, i))
  }

  /** Everything the write of request `k` inserts. */
  function Batch(rows: seq<LogRow>, k: nat): seq<TurnRow>
    requires k < |rows|
  {
    OwnRows(rows, k) + if k == 0 then [] else SupplementRows(rows, k - 1)
  }

  /**
   What a write needs to land: the supplement it carries, if any, starts past
   its predecessor's own rows.
   */
  predicate Fits(rows: seq<LogRow>, k: nat)
    requires k < |rows|
  {
    k > 0 && SupplementDue(rows, k - 1) != [] ==> |OwnDue(rows, k - 1)| <= SUPPLEMENT_SEQ_BASE
  }

  /** Whether turn `i` records a system value. */
  predicate Records(ts: seq<Turn>, i: nat)
    requires i < |ts|
  {
    Changes(Timeline(ts, i), ts[i].brings.system)
  }

  /** Request `k` shows nothing of its own, and its predecessor's reply was recorded as a stream. */
  predicate Invisible(rows: seq<LogRow>, k: nat)
    requires 0 < k < |rows|
  {
    && StreamOf(rows[k - 1]).text != ""
    && AddedAt(TurnsOf(rows), k) == []
    && !Records(TurnsOf(rows), k)
  }

  /** Each of the first `n` writes fits, or its loss is one nobody can see. */
  predicate Bearable(rows: seq<LogRow>, n: nat)
    requires n <= |rows|
  {
    forall k :: 0 <= k < n ==> Fits(rows, k) || (k > 0 && Invisible(rows, k))
  }

  /** What the write of request `k` leaves in the table. */
  function Landed(rows: seq<LogRow>, k: nat): seq<TurnRow>
    requires k < |rows|
  {
    if Fits(rows, k) then Batch(rows, k) else []
  }

  function LandedOwn(rows: seq<LogRow>, i: nat): seq<TurnRow>
    requires i < |rows|
  {
    if Fits(rows, i) then OwnRows(rows, i) else []
  }

  /** The supplement request `i` holds once `n` requests are written. */
  function LandedSupplement(rows: seq<LogRow>, i: nat, n: nat): seq<TurnRow>
    requires i < |rows| && n <= |rows|
  {
    if i + 1 < n && Fits(rows, i + 1) then SupplementRows(rows, i) else []
  }

  /** The session's rows after its first `n` writes. */
  function Stored(rows: seq<LogRow>, n: nat): seq<TurnRow>
    requires n <= |rows|
  {
    if n == 0 then [] else Stored(rows, n - 1) + Landed(rows, n - 1)
  }

  // ----- Selecting from a batch -----

  lemma RowsAtConcat(row: LogRow, base: nat, a: seq<Payload>, b: seq<Payload>)
    ensures RowsAt(row, base, a + b) == RowsAt(row, base, a) + RowsAt(row, base + |a|, b)
  {
  }

  predicate SameIdentity(r: TurnRow, row: LogRow) {
    r.session == SessionOf(row) && r.request == row.request && r.pk == row.pk && r.createdAt == row.createdAt
  }

  lemma RowsAtIdentity(row: LogRow, base: nat, ps: seq<Payload>)
    ensures forall r :: r in RowsAt(row, base, ps) ==>
              SameIdentity(r, row) && base <= r.seqNo < base + |ps| && Payload(r.eventType, r.content) in ps
  {
    forall r | r in RowsAt(row, base, ps)
      ensures SameIdentity(r, row) && base <= r.seqNo < base + |ps| && Payload(r.eventType, r.content) in ps
    {
      var k :| 0 <= k < |ps| && RowsAt(row, base, ps)[k] == r;
      assert ps[k] == Payload(r.eventType, r.content);
    }
  }

  lemma {:induction false} ElementPayloadsAre(els: seq<Json>, p: Payload)
    requires p in ElementPayloads(els)
    ensures IsInput(p.eventType) && p.content.ElementContent?
  {
    hide Class;
    var init, last := els[..|els| - 1], els[|els| - 1];
    if p in ElementPayloads(init) {
      ElementPayloadsAre(init, p);
    } else {
      ClassIsInput(last);
    }
  }

  lemma ClassIsInput(el: Json)
    ensures IsInput(Class(el))
  {
  }

  lemma {:induction false} ToolCallPayloadsAre(copies: seq<Json>, p: Payload)
    requires p in ToolCallPayloads(copies)
    ensures p.eventType == ToolCall
  {
    hide CarriesToolUse;
    if p in ToolCallPayloads(copies[..|copies| - 1]) {
      ToolCallPayloadsAre(copies[..|copies| - 1], p);
    }
  }

  /** The supplement holds no system value and no input. */
  lemma SupplementHoldsNoInput(rows: seq<LogRow>, i: nat, w: Want)
    requires i < |rows|
    requires w.OfType? && w.eventType != AssistantReply && w.eventType != ToolCall
    ensures Select(SupplementRows(rows, i), w) == []
  {
    hide TurnsOf, ToolCallPayloads;
    var ps := SupplementDue(rows, i);
    RowsAtIdentity(rows[i], SUPPLEMENT_SEQ_BASE, ps);
    forall r | r in SupplementRows(rows, i) ensures !Matches(r, w) {
      var p := Payload(r.eventType, r.content);
      assert p in ps;
      if p != ps[0] {
        ToolCallPayloadsAre(TurnsOf(rows)[i + 1].brings.copies, p);
      }
    }
    SelectNone(SupplementRows(rows, i), w);
  }

  /** A type's rows in a stretch of payloads that holds none of the type. */
  lemma SelectNoType(row: LogRow, base: nat, ps: seq<Payload>, w: Want)
    requires w.OfType? && forall p :: p in ps ==> p.eventType != w.eventType
    ensures Select(RowsAt(row, base, ps), w) == []
  {
    RowsAtIdentity(row, base, ps);
    SelectNone(RowsAt(row, base, ps), w);
  }

  /** The own payloads in three stretches: a system change, elements, the reply marker. */
  lemma SelectOfThree(row: LogRow, sys: seq<Payload>, els: seq<Payload>, reply: Payload, w: Want)
    ensures Select(RowsAt(row, 0, sys + els + [reply]), w)
         == Select(RowsAt(row, 0, sys), w) + Select(RowsAt(row, |sys|, els), w)
            + Select(RowsAt(row, |sys| + |els|, [reply]), w)
  {
    hide Select, RowsAt;
    RowsAtConcat(row, 0, sys + els, [reply]);
    RowsAtConcat(row, 0, sys, els);
    SelectConcat(RowsAt(row, 0, sys + els), RowsAt(row, |sys| + |els|, [reply]), w);
    SelectConcat(RowsAt(row, 0, sys), RowsAt(row, |sys|, els), w);
  }

  lemma TypedRowsOfOwn(row: LogRow, sys: seq<Payload>, kept: seq<Json>, reply: Payload)
    requires forall p :: p in sys ==> p.eventType == SystemPrompt
    requires reply.eventType == AssistantReply
    ensures Select(RowsAt(row, 0, sys + ElementPayloads(kept) + [reply]), OfType(SessionOf(row), SystemPrompt))
         == RowsAt(row, 0, sys)
    ensures Select(RowsAt(row, 0, sys + ElementPayloads(kept) + [reply]), OfType(SessionOf(row), UserInput))
         == Select(RowsAt(row, |sys|, ElementPayloads(kept)), OfType(SessionOf(row), UserInput))
  {
    hide Select, ElementPayloads;
    var els := ElementPayloads(kept);
    var system, user := OfType(SessionOf(row), SystemPrompt), OfType(SessionOf(row), UserInput);
    SelectOfThree(row, sys, els, reply, system);
    SelectOfThree(row, sys, els, reply, user);
    RowsAtIdentity(row, 0, sys);
    SelectAll(RowsAt(row, 0, sys), system);
    forall p: Payload | p in els ensures p.eventType != SystemPrompt {
      ElementPayloadsAre(kept, p);
    }
    SelectNoType(row, |sys|, els, system);
    SelectNoType(row, |sys| + |els|, [reply], system);
    SelectNoType(row, 0, sys, user);
    SelectNoType(row, |sys| + |els|, [reply], user);
  }

  function SystemDue(rows: seq<LogRow>, k: nat): seq<Payload>
    requires k < |rows|
  {
    SystemPayloads(BaselineOfTimeline(Timeline(TurnsOf(rows), k)), TurnsOf(rows)[k].brings.system)
  }

  lemma SelectOwnOfBatch(rows: seq<LogRow>, k: nat, w: Want)
    requires k < |rows|
    requires w.OfType? && w.eventType != AssistantReply && w.eventType != ToolCall
    ensures Select(Batch(rows, k), w) == Select(OwnRows(rows, k), w)
  {
    hide OwnRows, SupplementRows;
    if k > 0 {
      SupplementHoldsNoInput(rows, k - 1, w);
      SelectConcat(OwnRows(rows, k), SupplementRows(rows, k - 1), w);
    } else {
      assert Batch(rows, k) == OwnRows(rows, k);
    }
  }

  /** The system rows of a batch are the change, its user inputs those among the kept elements. */
  lemma TypedRowsOfBatch(rows: seq<LogRow>, k: nat, session: string)
    requires IsSession(rows, session) && k < |rows|
    ensures Select(Batch(rows, k), OfType(session, SystemPrompt)) == RowsAt(rows[k], 0, SystemDue(rows, k))
    ensures Select(Batch(rows, k), OfType(session, UserInput))
         == Select(RowsAt(rows[k], |SystemDue(rows, k)|, ElementPayloads(AddedAt(TurnsOf(rows), k))),
                   OfType(session, UserInput))
  {
    hide TurnsOf, Kept, ElementPayloads, BaselineOfTimeline, Timeline, FoldAt, Select, RowsAt;
    assert SessionOf(rows[k]) == session;
    SelectOwnOfBatch(rows, k, OfType(session, SystemPrompt));
    SelectOwnOfBatch(rows, k, OfType(session, UserInput));
    TypedRowsOfOwn(rows[k], SystemDue(rows, k), AddedAt(TurnsOf(rows), k),
                   Payload(AssistantReply, ReplyContent(OwnSource(OwnOf(rows[k])), [])));
  }

  // ----- The stored rows carry the pass's state -----

  lemma {:induction false} SelectOfNumbered(row: LogRow, base: nat, ps: seq<Payload>, w: Want)
    ensures IsSorted(Select(RowsAt(row, base, ps), w), BySession)
  {
    hide Matches, Select, RowsAt, IsSorted;
    if ps == [] {
      SelectNone(RowsAt(row, base, ps), w);
      OneIsSorted([], BySession);
    } else {
      var init, last := ps[..|ps| - 1], ps[|ps| - 1];
      SelectOfNumbered(row, base, init, w);
      assert ps == init + [last];
      RowsAtConcat(row, base, init, [last]);
      RowsAtOne(row, base + |init|, last);
      var one := RowsAt(row, base + |init|, [last]);
      SelectConcat(RowsAt(row, base, init), one, w);
      SelectOne(one[0], w);
      SelectIn(RowsAt(row, base, init), w);
      RowsAtIdentity(row, base, init);
      OneIsSorted(Select(one, w), BySession);
      SortedConcat(Select(RowsAt(row, base, init), w), Select(one, w), BySession);
    }
  }

  lemma OneIsSorted(rows: seq<TurnRow>, o: Order)
    requires |rows| <= 1
    ensures IsSorted(rows, o)
  {
  }

  lemma {:induction false} StoredIdentity(rows: seq<LogRow>, n: nat, r: TurnRow)
    requires n <= |rows| && r in Stored(rows, n)
    ensures exists i :: 0 <= i < n && SameIdentity(r, rows[i])
  {
    hide OwnDue, SupplementDue, Fits;
    if r in Stored(rows, n - 1) {
      StoredIdentity(rows, n - 1, r);
    } else {
      RowsAtIdentity(rows[n - 1], 0, OwnDue(rows, n - 1));
      if n > 1 {
        RowsAtIdentity(rows[n - 2], SUPPLEMENT_SEQ_BASE, SupplementDue(rows, n - 2));
      }
    }
  }

  lemma SortedConcat(a: seq<TurnRow>, b: seq<TurnRow>, o: Order)
    requires IsSorted(a, o) && IsSorted(b, o)
    requires forall x, y :: x in a && y in b ==> Leq(x, y, o)
    ensures IsSorted(a + b, o)
  {
    forall i, j | 0 <= i < j < |a + b| ensures Leq((a + b)[i], (a + b)[j], o) {
      if i < |a| <= j {
        assert a[i] in a && b[j - |a|] in b;
      }
    }
  }

  /** System rows and user inputs sit in session order as they were inserted. */
  lemma {:induction false} TypedRowsAreOrdered(rows: seq<LogRow>, n: nat, session: string, ty: EventType)
    requires IsSession(rows, session) && n <= |rows|
    requires ty == SystemPrompt || ty == UserInput
    ensures IsSorted(Select(Stored(rows, n), OfType(session, ty)), BySession)
  {
    hide OwnDue, SupplementDue, IsSorted, Batch, RowsAt, Select, Fits;
    if n > 0 && !Fits(rows, n - 1) {
      TypedRowsAreOrdered(rows, n - 1, session, ty);
      assert Stored(rows, n) == Stored(rows, n - 1);
    } else if n > 0 {
      var w, k := OfType(session, ty), n - 1;
      TypedRowsAreOrdered(rows, k, session, ty);
      var old_, new_ := Select(Stored(rows, k), w), Select(OwnRows(rows, k), w);
      SelectOfNumbered(rows[k], 0, OwnDue(rows, k), w);
      SelectOwnOfBatch(rows, k, w);
      SelectConcat(Stored(rows, k), Batch(rows, k), w);
      SelectIn(Stored(rows, k), w);
      SelectIn(OwnRows(rows, k), w);
      RowsAtIdentity(rows[k], 0, OwnDue(rows, k));
      forall x, y | x in old_ && y in new_ ensures Leq(x, y, BySession) {
        StoredIdentity(rows, k, x);
      }
      SortedConcat(old_, new_, BySession);
    } else {
      SelectNone([], OfType(session, ty));
      OneIsSorted([], BySession);
    }
  }

  /** The system rows are the timeline, entry by entry, numbered from 0. */
  lemma {:induction false} SystemRowsAreTheTimeline(rows: seq<LogRow>, n: nat, session: string)
    requires IsSession(rows, session) && n <= |rows| && Bearable(rows, n)
    ensures var sys, t := Select(Stored(rows, n), OfType(session, SystemPrompt)), Timeline(TurnsOf(rows), n);
            && |sys| == |t|
            && forall j :: 0 <= j < |t| ==>
                 && sys[j].content == SystemContent(j, t[j].raw)
                 && sys[j].request == t[j].seenAt
                 && !t[j].truncated
  {
    hide Batch, TurnsOf, Select, Fits, StreamOf, AddedAt;
    if n > 0 && !Fits(rows, n - 1) {
      SystemRowsAreTheTimeline(rows, n - 1, session);
      assert Stored(rows, n) == Stored(rows, n - 1);
    } else if n > 0 {
      SystemRowsAreTheTimeline(rows, n - 1, session);
      TypedRowsOfBatch(rows, n - 1, session);
      SelectConcat(Stored(rows, n - 1), Batch(rows, n - 1), OfType(session, SystemPrompt));
      CappedBodyHasNoSystem(rows, n - 1);
    } else {
      assert Select([], OfType(session, SystemPrompt)) == [] by { SelectNone([], OfType(session, SystemPrompt)); }
    }
  }

  lemma CappedBodyHasNoSystem(rows: seq<LogRow>, i: nat)
    requires i < |rows|
    ensures IsCapped(rows[i].body) ==> TurnsOf(rows)[i].brings.system.None?
  {
    hide Elements, PrefixFrom, OfRole;
    assert TurnsOf(rows)[i] == TurnAt(InputsOf(rows), i);
  }

  lemma BaselineIsReadable(rows: seq<LogRow>, n: nat, session: string)
    requires IsSession(rows, session) && n <= |rows| && Bearable(rows, n)
    ensures BaselineOfRows(Select(Stored(rows, n), OfType(session, SystemPrompt)))
         == BaselineOfTimeline(Timeline(TurnsOf(rows), n))
  {
    hide Stored, TurnsOf, Timeline, Select, Bearable;
    SystemRowsAreTheTimeline(rows, n, session);
  }

  /** Folding over one more element row. */
  lemma FoldOfOneMoreRow(f: FoldState, users: seq<TurnRow>, row: TurnRow, el: Json, s: FoldState)
    requires s == if users == [] then f else FoldOfRows(users)
    requires row.content == ElementContent(el) && row.eventType == Class(el)
    ensures Class(el) == UserInput ==> FoldOfRows(users + [row]) == FoldState(RealText(el), true)
    ensures Class(el) != UserInput ==> s == if users + [] == [] then f else FoldOfRows(users + [])
  {
    hide Class, RealText;
  }

  /** The last user-input row of a stretch of elements speaks for the fold's state. */
  lemma {:induction false} FoldOfElementRows(f: FoldState, row: LogRow, base: nat, kept: seq<Json>)
    ensures var users := Select(RowsAt(row, base, ElementPayloads(kept)), OfType(SessionOf(row), UserInput));
            StateOfRows(f, kept) == if users == [] then f else FoldOfRows(users)
  {
    hide Class, RealText, FoldOfRows, Select;
    var w := OfType(SessionOf(row), UserInput);
    if kept != [] {
      var init, last := kept[..|kept| - 1], kept[|kept| - 1];
      FoldOfElementRows(f, row, base, init);
      var ps, p := ElementPayloads(init), Payload(Class(last), ElementContent(last));
      var one := RowsAt(row, base + |ps|, [p]);
      RowsAtConcat(row, base, ps, [p]);
      SelectConcat(RowsAt(row, base, ps), one, w);
      assert one == [one[0]];
      SelectOne(one[0], w);
      FoldOfOneMoreRow(f, Select(RowsAt(row, base, ps), w), one[0], last, StateOfRows(f, init));
    } else {
      SelectNone([], w);
    }
  }

  lemma FoldOfMore(a: seq<TurnRow>, b: seq<TurnRow>)
    requires b != []
    ensures FoldOfRows(a + b) == FoldOfRows(b)
  {
  }

  lemma {:induction false} FoldIsReadable(rows: seq<LogRow>, n: nat, session: string)
    requires IsSession(rows, session) && n <= |rows| && Bearable(rows, n)
    ensures FoldOfRows(Select(Stored(rows, n), OfType(session, UserInput))) == FoldAt(TurnsOf(rows), n)
  {
    hide Batch, TurnsOf, FoldOfRows, Kept, After, StateOfRows, RowsAt, Select, ElementPayloads, SystemDue, Fits, StreamOf, Records;
    if n > 0 && !Fits(rows, n - 1) {
      FoldIsReadable(rows, n - 1, session);
      assert Stored(rows, n) == Stored(rows, n - 1);
      StateIsReadableFromKept(FoldAt(TurnsOf(rows), n - 1), TurnsOf(rows)[n - 1].brings.elements);
      StateOfNoRows(FoldAt(TurnsOf(rows), n - 1));
    } else if n > 0 {
      var ts, w, k := TurnsOf(rows), OfType(session, UserInput), n - 1;
      FoldIsReadable(rows, k, session);
      var base := |SystemDue(rows, k)|;
      TypedRowsOfBatch(rows, k, session);
      SelectConcat(Stored(rows, k), Batch(rows, k), w);
      var users := Select(RowsAt(rows[k], base, ElementPayloads(AddedAt(ts, k))), w);
      FoldOfElementRows(FoldAt(ts, k), rows[k], base, AddedAt(ts, k));
      StateIsReadableFromKept(FoldAt(ts, k), ts[k].brings.elements);
      if users != [] {
        FoldOfMore(Select(Stored(rows, k), w), users);
      } else {
        assert Select(Stored(rows, n), w) == Select(Stored(rows, k), w);
      }
    } else {
      SelectNone([], OfType(session, UserInput));
      FoldOfNoRows();
    }
  }

  lemma StateOfNoRows(f: FoldState)
    ensures StateOfRows(f, []) == f
  {
  }

  lemma FoldOfNoRows()
    ensures FoldOfRows([]) == FRESH
  {
  }

  // ----- One write of one session -----

  /** The engine's reads before write `k` hand the derivation the pass's own state. */
  lemma BaselinesAgree(rows: seq<LogRow>, k: nat, session: string, table: seq<TurnRow>)
    requires IsSession(rows, session) && k <= |rows| && Bearable(rows, k)
    requires Select(table, OfSession(session)) == Stored(rows, k)
    ensures FetchSystemBaseline(table, session) == BaselineOfTimeline(Timeline(TurnsOf(rows), k))
    ensures FetchLastUserInput(table, session) == FoldAt(TurnsOf(rows), k)
  {
    hide Select, Stored, TurnsOf, Timeline, FoldAt, Bearable, BaselineOfRows, FoldOfRows, Sorted, IsSorted;
    forall ty | ty == SystemPrompt || ty == UserInput
      ensures TypedRows(table, session, ty) == Select(Stored(rows, k), OfType(session, ty))
    {
      SelectWithin(table, OfSession(session), OfType(session, ty));
      TypedRowsAreOrdered(rows, k, session, ty);
      SortedOfSorted(Select(Stored(rows, k), OfType(session, ty)), BySession);
    }
    BaselineIsReadable(rows, k, session);
    FoldIsReadable(rows, k, session);
  }

  function PredecessorOf(rows: seq<LogRow>, k: nat): Option<LogRow>
    requires k < |rows|
  {
    if k == 0 then None else Some(rows[k - 1])
  }

  lemma BringsAgrees(rows: seq<LogRow>, k: nat)
    requires k < |rows|
    ensures Brings(OwnOf(rows[k]), PrevBodyOf(PredecessorOf(rows, k))) == TurnsOf(rows)[k].brings
  {
    hide Parse, Elements, OfRole, PrefixFrom;
    assert TurnsOf(rows)[k] == TurnAt(InputsOf(rows), k);
  }

  /** Materialized rows are the numbered payloads under their identities. */
  lemma {:induction false} BatchRowsOfOwn(row: LogRow, prev: Option<LogRow>, ps: seq<Payload>)
    ensures BatchRows(row, prev, Numbered(0, ps, false)) == RowsAt(row, 0, ps)
  {
    if ps != [] {
      var init := ps[..|ps| - 1];
      BatchRowsOfOwn(row, prev, init);
      assert Numbered(0, ps, false)[..|init|] == Numbered(0, init, false);
    }
  }

  lemma {:induction false} BatchRowsOfSupplement(row: LogRow, prev: LogRow, own: seq<TurnEvent>, ps: seq<Payload>)
    requires SessionOf(prev) == SessionOf(row)
    ensures BatchRows(row, Some(prev), own + Numbered(SUPPLEMENT_SEQ_BASE, ps, true))
         == BatchRows(row, Some(prev), own) + RowsAt(prev, SUPPLEMENT_SEQ_BASE, ps)
  {
    if ps != [] {
      hide BatchRows, Numbered, RowsAt;
      var init, p := ps[..|ps| - 1], ps[|ps| - 1];
      assert ps == init + [p];
      var e := TurnEvent(SUPPLEMENT_SEQ_BASE + |init|, p.eventType, p.content, true);
      BatchRowsOfSupplement(row, prev, own, init);
      NumberedOneMore(SUPPLEMENT_SEQ_BASE, init, p, true);
      assert own + (Numbered(SUPPLEMENT_SEQ_BASE, init, true) + [e]) == own + Numbered(SUPPLEMENT_SEQ_BASE, init, true) + [e];
      BatchRowsOneMore(row, Some(prev), own + Numbered(SUPPLEMENT_SEQ_BASE, init, true), e);
      RowsAtConcat(prev, SUPPLEMENT_SEQ_BASE, init, [p]);
      RowsAtOne(prev, SUPPLEMENT_SEQ_BASE + |init|, p);
    } else {
      assert own + Numbered(SUPPLEMENT_SEQ_BASE, [], true) == own;
    }
  }

  lemma BatchRowsOneMore(row: LogRow, prev: Option<LogRow>, events: seq<TurnEvent>, e: TurnEvent)
    ensures BatchRows(row, prev, events + [e])
         == BatchRows(row, prev, events)
            + if !e.forPrev then [RowFor(row, SessionOf(row), e)]
              else if prev.Some? then [RowFor(prev.value, SessionOf(row), e)] else []
  {
    assert (events + [e])[..|events|] == events;
  }

  lemma RowsAtOne(row: LogRow, base: nat, p: Payload)
    ensures RowsAt(row, base, [p])
         == [TurnRow(SessionOf(row), row.request, row.pk, row.createdAt, base, p.eventType, p.content)]
  {
  }

  /** With its predecessor found, write `k` derives exactly the batch it is due. */
  lemma BatchIsDue(rows: seq<LogRow>, k: nat, session: string, table: seq<TurnRow>, log: seq<LogRow>)
    requires IsSession(rows, session) && k < |rows| && Bearable(rows, k)
    requires Select(table, OfSession(session)) == Stored(rows, k)
    requires PrevRequest(log, rows[k]) == PredecessorOf(rows, k)
    ensures BatchFor(table, log, rows[k]) == Batch(rows, k)
  {
    hide Select, Stored, TurnsOf, Timeline, FoldAt, Bearable, FetchSystemBaseline, FetchLastUserInput, PrevRequest,
         Brings, OwnPayloads, SupplementPayloads, BatchRows, RowsAt, Numbered, BaselineOfTimeline;
    BaselinesAgree(rows, k, session, table);
    BringsAgrees(rows, k);
    var own := OwnDue(rows, k);
    BatchRowsOfOwn(rows[k], PredecessorOf(rows, k), own);
    if k == 0 {
      assert DerivedFor(table, log, rows[k]) == Numbered(0, own, false) + Numbered(SUPPLEMENT_SEQ_BASE, [], true) by {
        NoSupplement(TurnsOf(rows)[0].brings.copies, false);
      }
      assert Numbered(SUPPLEMENT_SEQ_BASE, [], true) == [];
      assert DerivedFor(table, log, rows[k]) == Numbered(0, own, false);
    } else {
      BatchRowsOfSupplement(rows[k], rows[k - 1], Numbered(0, own, false), SupplementDue(rows, k - 1));
    }
  }

  lemma NoSupplement(copies: seq<Json>, inline: bool)
    ensures SupplementPayloads(copies, false, inline) == []
  {
  }

  lemma RowsAtKeysUnique(row: LogRow, base: nat, ps: seq<Payload>)
    ensures KeysUnique(RowsAt(row, base, ps))
  {
  }

  lemma BatchKeysUnique(rows: seq<LogRow>, k: nat, session: string)
    requires IsSession(rows, session) && k < |rows|
    ensures KeysUnique(Batch(rows, k))
  {
    hide OwnDue, SupplementDue;
    RowsAtKeysUnique(rows[k], 0, OwnDue(rows, k));
    if k > 0 {
      RowsAtKeysUnique(rows[k - 1], SUPPLEMENT_SEQ_BASE, SupplementDue(rows, k - 1));
      assert rows[k - 1].request != rows[k].request;
    }
  }

  /**
   A batch of an in-order session is refused exactly when it does not fit: the
   predecessor holds more than 1024 own rows and this request resends copies
   for it. The refusal is silent and drops the request's own events too.
   */
  lemma WriteLandsExactlyWhenItFits(rows: seq<LogRow>, k: nat, session: string, table: seq<TurnRow>)
    requires IsSession(rows, session) && k < |rows|
    requires Select(table, OfRequest(rows[k].request)) == []
    requires k > 0 ==> Select(table, OfRequest(rows[k - 1].request)) == LandedOwn(rows, k - 1)
    requires k > 0 && !Fits(rows, k - 1) ==> |OwnDue(rows, k - 1)| <= SUPPLEMENT_SEQ_BASE
    ensures Insertable(table, Batch(rows, k)) <==> Fits(rows, k)
  {
    hide OwnDue, SupplementDue, Select;
    BatchKeysUnique(rows, k, session);
    SelectIn(table, OfRequest(rows[k].request));
    RowsAtIdentity(rows[k], 0, OwnDue(rows, k));
    if k > 0 {
      var p := rows[k - 1];
      var own, sup := OwnDue(rows, k - 1), SupplementDue(rows, k - 1);
      SelectIn(table, OfRequest(p.request));
      RowsAtIdentity(p, 0, own);
      RowsAtIdentity(p, SUPPLEMENT_SEQ_BASE, sup);
      if !Fits(rows, k) {
        var clash := RowsAt(p, 0, own)[SUPPLEMENT_SEQ_BASE];
        assert clash in Select(table, OfRequest(p.request));
        assert SameKey(clash, SupplementRows(rows, k - 1)[0]);
        assert SupplementRows(rows, k - 1)[0] in Batch(rows, k);
      }
    }
  }

  // ----- Reading one block back -----

  lemma SelectBatchByRequest(rows: seq<LogRow>, k: nat, session: string, i: nat)
    requires IsSession(rows, session) && k < |rows| && i < |rows|
    ensures Select(Batch(rows, k), OfRequest(rows[i].request))
         == if i == k then OwnRows(rows, k) else if i + 1 == k then SupplementRows(rows, i) else []
  {
    hide OwnDue, SupplementDue, Select;
    var w := OfRequest(rows[i].request);
    RowsAtIdentity(rows[k], 0, OwnDue(rows, k));
    assert rows[i].request == rows[k].request <==> i == k;
    if i == k { SelectAll(OwnRows(rows, k), w); } else { SelectNone(OwnRows(rows, k), w); }
    if k > 0 {
      RowsAtIdentity(rows[k - 1], SUPPLEMENT_SEQ_BASE, SupplementDue(rows, k - 1));
      SelectConcat(OwnRows(rows, k), SupplementRows(rows, k - 1), w);
      assert rows[i].request == rows[k - 1].request <==> i == k - 1;
      if i == k - 1 { SelectAll(SupplementRows(rows, i), w); } else { SelectNone(SupplementRows(rows, k - 1), w); }
    } else {
      assert Batch(rows, k) == OwnRows(rows, k);
    }
  }

  /** After `n` writes a request holds its own rows, then its successor's supplement, as far as each write fitted. */
  lemma {:induction false} RowsOfRequest(rows: seq<LogRow>, n: nat, session: string, i: nat)
    requires IsSession(rows, session) && n <= |rows| && i < |rows|
    ensures Select(Stored(rows, n), OfRequest(rows[i].request))
         == if i >= n then [] else LandedOwn(rows, i) + LandedSupplement(rows, i, n)
  {
    hide Batch, OwnRows, SupplementRows, Select, Fits;
    var w := OfRequest(rows[i].request);
    if n > 0 {
      RowsOfRequest(rows, n - 1, session, i);
      SelectConcat(Stored(rows, n - 1), Landed(rows, n - 1), w);
      SelectBatchByRequest(rows, n - 1, session, i);
      SelectNone([], w);
    } else {
      SelectNone([], w);
    }
  }

  /** A request whose loss cannot be seen owes no more than its reply marker. */
  lemma InvisibleOwesOneRow(rows: seq<LogRow>, k: nat)
    requires 0 < k < |rows| && Invisible(rows, k)
    ensures |OwnDue(rows, k)| == 1
  {
    hide TurnsOf, Timeline, FoldAt, Kept, OwnSource;
    var ts := TurnsOf(rows);
    assert ElementPayloads([]) == [];
    assert SystemPayloads(BaselineOfTimeline(Timeline(ts, k)), ts[k].brings.system) == [];
  }

  lemma ReadAddedOfConcat(a: seq<TurnRow>, b: seq<TurnRow>)
    requires forall r :: r in b ==> !IsInput(r.eventType)
    ensures ReadAdded(a + b) == ReadAdded(a)
    decreases |b|
  {
    if b == [] {
      assert a + b == a;
    } else {
      assert (a + b)[..|a + b| - 1] == a + b[..|b| - 1];
      assert b[|b| - 1] in b;
      ReadAddedOfConcat(a, b[..|b| - 1]);
    }
  }

  lemma ReadAddedOfNone()
    ensures ReadAdded([]) == []
  {
  }

  lemma ReadAddedOfOneMore(rs: seq<TurnRow>, r: TurnRow)
    requires IsInput(r.eventType) && r.content.ElementContent?
    ensures ReadAdded(rs + [r]) == ReadAdded(rs) + [r.content.element]
  {
    assert (rs + [r])[..|rs|] == rs;
  }

  lemma ReadAddedOfSystem(row: LogRow, sys: seq<Payload>)
    requires forall p :: p in sys ==> p.eventType == SystemPrompt
    ensures ReadAdded(RowsAt(row, 0, sys)) == []
  {
    hide ReadAdded;
    RowsAtIdentity(row, 0, sys);
    ReadAddedOfConcat([], RowsAt(row, 0, sys));
    assert [] + RowsAt(row, 0, sys) == RowsAt(row, 0, sys);
    ReadAddedOfNone();
  }

  /** One more element row at the end of a stretch reads as one more element. */
  lemma ReadAddedOfOneMoreElement(row: LogRow, ps: seq<Payload>, el: Json)
    ensures ReadAdded(RowsAt(row, 0, ps + [Payload(Class(el), ElementContent(el))])) == ReadAdded(RowsAt(row, 0, ps)) + [el]
  {
    hide Class, ReadAdded, RowsAt, IsInput;
    var p := Payload(Class(el), ElementContent(el));
    ClassIsInput(el);
    RowsAtConcat(row, 0, ps, [p]);
    RowsAtOne(row, |ps|, p);
    ReadAddedOfOneMore(RowsAt(row, 0, ps), RowsAt(row, |ps|, [p])[0]);
  }

  lemma {:induction false} ReadAddedOfElements(row: LogRow, sys: seq<Payload>, kept: seq<Json>)
    requires forall p :: p in sys ==> p.eventType == SystemPrompt
    ensures ReadAdded(RowsAt(row, 0, sys + ElementPayloads(kept))) == kept
  {
    hide Class, ReadAdded, RowsAt;
    if kept == [] {
      assert sys + [] == sys;
      ReadAddedOfSystem(row, sys);
    } else {
      var init, last := kept[..|kept| - 1], kept[|kept| - 1];
      ReadAddedOfElements(row, sys, init);
      ReadAddedOfOneMoreElement(row, sys + ElementPayloads(init), last);
      assert sys + ElementPayloads(kept) == sys + ElementPayloads(init) + [Payload(Class(last), ElementContent(last))];
      assert kept == init + [last];
    }
  }

  /** A request's own rows hold its added elements, whatever supplement follows. */
  lemma OwnRowsHoldTheAdded(rows: seq<LogRow>, i: nat, more: seq<TurnRow>)
    requires i < |rows| && (more == [] || more == SupplementRows(rows, i))
    ensures ReadAdded(OwnRows(rows, i) + more) == AddedAt(TurnsOf(rows), i)
  {
    hide TurnsOf, Kept, ElementPayloads, ReadAdded, BaselineOfTimeline, Timeline, FoldAt, SystemPayloads;
    var kept := AddedAt(TurnsOf(rows), i);
    var sys := SystemDue(rows, i);
    var reply := Payload(AssistantReply, ReplyContent(OwnSource(OwnOf(rows[i])), []));
    assert OwnDue(rows, i) == sys + ElementPayloads(kept) + [reply];
    RowsAtConcat(rows[i], 0, sys + ElementPayloads(kept), [reply]);
    var body := RowsAt(rows[i], 0, sys + ElementPayloads(kept));
    var tail := RowsAt(rows[i], |sys + ElementPayloads(kept)|, [reply]) + more;
    assert OwnRows(rows, i) + more == body + tail;
    SystemPayloadsAre(BaselineOfTimeline(Timeline(TurnsOf(rows), i)), TurnsOf(rows)[i].brings.system);
    ReadAddedOfElements(rows[i], sys, kept);
    SupplementIsNoInput(rows, i);
    ReadAddedOfConcat(body, tail);
  }

  /** The rows a request holds read back as the block's added elements. */
  lemma AddedIsReadable(rows: seq<LogRow>, i: nat)
    requires i < |rows| && Bearable(rows, |rows|)
    ensures ReadAdded(LandedOwn(rows, i) + LandedSupplement(rows, i, |rows|)) == AddedAt(TurnsOf(rows), i)
  {
    hide OwnRows, SupplementRows, TurnsOf, AddedAt, ReadAdded, Fits, Records;
    var more := LandedSupplement(rows, i, |rows|);
    if Fits(rows, i) {
      OwnRowsHoldTheAdded(rows, i, more);
    } else {
      SupplementIsNoInput(rows, i);
      ReadAddedOfConcat([], more);
      ReadAddedOfNone();
    }
  }

  lemma SystemPayloadsAre(b: SystemBaseline, system: Option<Json>)
    ensures forall p :: p in SystemPayloads(b, system) ==> p.eventType == SystemPrompt
  {
  }

  lemma SupplementIsNoInput(rows: seq<LogRow>, i: nat)
    requires i < |rows|
    ensures forall r :: r in SupplementRows(rows, i) ==> !IsInput(r.eventType)
  {
    hide TurnsOf, ToolCallPayloads;
    var ps := SupplementDue(rows, i);
    RowsAtIdentity(rows[i], SUPPLEMENT_SEQ_BASE, ps);
    forall r | r in SupplementRows(rows, i) ensures !IsInput(r.eventType) {
      var p := Payload(r.eventType, r.content);
      assert p in ps;
      if p != ps[0] {
        ToolCallPayloadsAre(TurnsOf(rows)[i + 1].brings.copies, p);
      }
    }
  }

  lemma {:induction false} NoSupplementReply(rs: seq<TurnRow>)
    requires forall r :: r in rs ==> !IsSupplementReply(r)
    ensures SupplementReply(rs) == None
  {
    if rs != [] {
      assert rs[|rs| - 1] in rs;
      NoSupplementReply(rs[..|rs| - 1]);
    }
  }

  lemma {:induction false} FirstSupplementReply(rs: seq<TurnRow>, at: nat)
    requires at < |rs| && IsSupplementReply(rs[at])
    requires forall r :: r in rs[..at] ==> !IsSupplementReply(r)
    ensures SupplementReply(rs) == Some(rs[at].content.copies)
  {
    if at == |rs| - 1 {
      NoSupplementReply(rs[..at]);
    } else {
      assert rs[..|rs| - 1][..at] == rs[..at];
      FirstSupplementReply(rs[..|rs| - 1], at);
    }
  }

  lemma {:induction false} OwnRowsHoldNoSupplement(rows: seq<LogRow>, i: nat)
    requires i < |rows|
    ensures forall r :: r in OwnRows(rows, i) ==> !IsSupplementReply(r)
  {
    hide TurnsOf, Kept, ElementPayloads, BaselineOfTimeline, Timeline, FoldAt;
    RowsAtIdentity(rows[i], 0, OwnDue(rows, i));
    forall r | r in OwnRows(rows, i) ensures !IsSupplementReply(r) {
      var p := Payload(r.eventType, r.content);
      assert p in OwnDue(rows, i);
      if p in ElementPayloads(AddedAt(TurnsOf(rows), i)) {
        ElementPayloadsAre(AddedAt(TurnsOf(rows), i), p);
      }
    }
  }

  /** An unfit write carries copies for a predecessor whose reply was not recorded inline. */
  lemma UnfitCarriesCopies(rows: seq<LogRow>, k: nat)
    requires k < |rows| && !Fits(rows, k)
    ensures k > 0 && TurnsOf(rows)[k].brings.copies != [] && !HasInline(rows[k - 1])
  {
    hide TurnsOf, OwnDue, ToolCallPayloads;
  }

  lemma SupplementIsDue(rows: seq<LogRow>, i: nat)
    requires i < |rows| && !HasInline(rows[i])
    ensures (var copies := CopiesAt(TurnsOf(rows), i + 1);
             if copies == [] then SupplementRows(rows, i) == []
             else SupplementRows(rows, i) != [] && IsSupplementReply(SupplementRows(rows, i)[0])
                  && SupplementRows(rows, i)[0].content.copies == copies)
  {
    hide TurnsOf, ToolCallPayloads;
  }

  /** The reply read from the rows and the live body row is the pass's attribution. */
  lemma ReplyIsReadable(rows: seq<LogRow>, i: nat)
    requires i < |rows| && Bearable(rows, |rows|)
    ensures ReadReply(LandedOwn(rows, i) + LandedSupplement(rows, i, |rows|), rows[i])
         == Attribute(rows[i].response, StreamOf(rows[i]), CopiesAt(TurnsOf(rows), i + 1))
  {
    hide OwnRows, SupplementRows, TurnsOf, SupplementReply, AddedAt, Records, Fits, IsSupplementReply;
    var own, all := LandedOwn(rows, i), LandedOwn(rows, i) + LandedSupplement(rows, i, |rows|);
    OwnRowsHoldNoSupplement(rows, i);
    if !HasInline(rows[i]) && StreamOf(rows[i]).text == "" {
      assert i + 1 < |rows| ==> Fits(rows, i + 1);
      SupplementIsDue(rows, i);
      if CopiesAt(TurnsOf(rows), i + 1) == [] {
        assert all == own;
        NoSupplementReply(own);
      } else {
        assert all[..|own|] == own;
        FirstSupplementReply(all, |own|);
      }
    }
  }
}
