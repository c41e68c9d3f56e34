/**
 The turn store's engine (internal/agentturns/store.go): the write of one
 request's batch, the degraded pending marker, and the reads behind both the
 write path and the transcript (internal/service/requestlog).
 */
module TurnStore {
  import opened Wrappers
  import opened Json
  import opened Classify
  import opened Replay
  import opened Derive
  import opened Rows

  /** One request_logs row joined with its body row and its capture file. */
  datatype LogRow = LogRow(session: Option<string>, request: string, pk: nat, createdAt: int, body: RequestBody,
                           response: Capture, streamPath: string, streamFile: Capture)

  function SessionOf(row: LogRow): string {
    if row.session.Some? then row.session.value else ""
  }

  predicate HasInline(row: LogRow) {
    row.response.text != ""
  }

  /** What the stream half reads as: nothing without a recorded path. */
  function StreamOf(row: LogRow): Capture {
    if row.streamPath == "" then Capture("", false) else row.streamFile
  }

  function OwnOf(row: LogRow): OwnBody {
    OwnBody(row.body, HasInline(row), row.streamPath != "")
  }

  // ----- Reads of the write path -----

  /** Session order: created_at, then id. */
  predicate Earlier(a: LogRow, b: LogRow) {
    a.createdAt < b.createdAt || (a.createdAt == b.createdAt && a.pk < b.pk)
  }

  predicate IsBefore(r: LogRow, row: LogRow) {
    r.session == Some(SessionOf(row)) && Earlier(r, row)
  }

  /** fetchPrevRequest: the latest request of the session before `row`. */
  function PrevRequest(log: seq<LogRow>, row: LogRow): Option<LogRow> {
    if log == [] then None
    else
      var rest, last := PrevRequest(log[..|log| - 1], row), log[|log| - 1];
      if IsBefore(last, row) && (rest.None? || Earlier(rest.value, last)) then Some(last) else rest
  }

  /** The query answers a latest predecessor, and None only when there is none. */
  lemma {:induction false} PrevRequestIsLatest(log: seq<LogRow>, row: LogRow)
    ensures var p := PrevRequest(log, row);
            && (p.Some? ==> p.value in log && IsBefore(p.value, row))
            && (forall r :: r in log && IsBefore(r, row) ==> p.Some? && !Earlier(p.value, r))
  {
    if log != [] {
      PrevRequestIsLatest(log[..|log| - 1], row);
      assert log == log[..|log| - 1] + [log[|log| - 1]];
    }
  }

  function PrevBodyOf(prev: Option<LogRow>): Option<PrevBody> {
    if prev.Some? then Some(PrevBody(prev.value.body, HasInline(prev.value))) else None
  }

  /** The session's rows of one type in session order. */
  function TypedRows(table: seq<TurnRow>, session: string, ty: EventType): seq<TurnRow> {
    Sorted(Select(table, OfType(session, ty)), BySession)
  }

  function BaselineOfRows(rows: seq<TurnRow>): SystemBaseline {
    if rows != [] && rows[|rows| - 1].content.SystemContent?
    then SystemBaseline(Some(rows[|rows| - 1].content.raw), rows[|rows| - 1].content.ordinal + 1)
    else SystemBaseline(None, 0)
  }

  function FoldOfRows(rows: seq<TurnRow>): FoldState {
    if rows != [] && rows[|rows| - 1].content.ElementContent?
    then FoldState(RealText(rows[|rows| - 1].content.element), true)
    else FRESH
  }

  /** fetchSystemBaseline and fetchLastUserInput: the newest row of the type, whatever request it is of. */
  function FetchSystemBaseline(table: seq<TurnRow>, session: string): SystemBaseline {
    BaselineOfRows(TypedRows(table, session, SystemPrompt))
  }

  function FetchLastUserInput(table: seq<TurnRow>, session: string): FoldState {
    FoldOfRows(TypedRows(table, session, UserInput))
  }

  // ----- The batch -----

  function RowFor(row: LogRow, session: string, ev: TurnEvent): TurnRow {
    TurnRow(session, row.request, row.pk, row.createdAt, ev.seqNo, ev.eventType, ev.content)
  }

  /** The rows of one write: own events under the request, supplement events under its predecessor. */
  function BatchRows(row: LogRow, prev: Option<LogRow>, events: seq<TurnEvent>): seq<TurnRow> {
    if events == [] then []
    else
      var init, last := BatchRows(row, prev, events[..|events| - 1]), events[|events| - 1];
      if !last.forPrev then init + [RowFor(row, SessionOf(row), last)]
      else if prev.Some? then init + [RowFor(prev.value, SessionOf(row), last)]
      else init
  }

  function DerivedFor(table: seq<TurnRow>, log: seq<LogRow>, row: LogRow): seq<TurnEvent> {
    Derived(OwnOf(row), PrevBodyOf(PrevRequest(log, row)),
            FetchSystemBaseline(table, SessionOf(row)), FetchLastUserInput(table, SessionOf(row)))
  }

  function BatchFor(table: seq<TurnRow>, log: seq<LogRow>, row: LogRow): seq<TurnRow> {
    BatchRows(row, PrevRequest(log, row), DerivedFor(table, log, row))
  }

  /** The table after an undisturbed RecordTurnsForRequest. */
  function AfterWrite(table: seq<TurnRow>, log: seq<LogRow>, row: LogRow): seq<TurnRow> {
    if SessionOf(row) == "" then table else Insert(table, BatchFor(table, log, row))
  }

  function PendingRow(row: LogRow): TurnRow {
    TurnRow(SessionOf(row), row.request, row.pk, row.createdAt, PENDING_SEQ, Pending, NoContent)
  }

  /** ON CONFLICT DO NOTHING: the marker lands unless its key is taken. */
  function WithPending(table: seq<TurnRow>, row: LogRow): seq<TurnRow> {
    Insert(table, [PendingRow(row)])
  }

  /** What can go wrong outside the engine: a read, the derivation or the insert fails; so may the marker. */
  datatype Fault = NoFault | StepFails | EverythingFails

  class Store {
    var table: seq<TurnRow>

    constructor ()
      ensures table == []
    {
      table := [];
    }

    /** One atomic insert under the UNIQUE(request_id, seq) constraint. */
    method Create(rows: seq<TurnRow>) returns (ok: bool)
      modifies this
      ensures table == Insert(old(table), rows)
      ensures ok == Insertable(old(table), rows)
    {
      ok := true;
      for i := 0 to |rows|
        invariant ok ==> KeysUnique(rows[..i]) && forall r :: r in rows[..i] ==> !Taken(table, r)
        invariant !ok ==> !Insertable(table, rows)
        invariant table == old(table)
      {
        if exists r :: r in table && SameKey(r, rows[i]) {
          assert rows[i] in rows && Taken(table, rows[i]);
          ok := false;
        }
        if exists j :: 0 <= j < i && SameKey(rows[j], rows[i]) {
          ok := false;
        }
      }
      assert rows[..|rows|] == rows;
      if ok {
        table := table + rows;
      }
    }

    method DegradeToPending(row: LogRow, markerFails: bool)
      modifies this
      ensures table == if markerFails then old(table) else WithPending(old(table), row)
    {
      if !markerFails {
        var _ := Create([PendingRow(row)]);
      }
    }

    /**
     One request's write. Without a fault the batch lands whole or, when any of
     its keys is taken, not at all; either way the caller is told nothing went
     wrong. A fault leaves at most the pending marker.
     */
    method WriteForRequest(row: LogRow, log: seq<LogRow>, fault: Fault) returns (degraded: bool)
      modifies this
      ensures degraded == (fault != NoFault)
      ensures table == match fault
                       case NoFault => Insert(old(table), BatchFor(old(table), log, row))
                       case StepFails => WithPending(old(table), row)
                       case EverythingFails => old(table)
    {
      hide Derived, PrevRequest, FetchSystemBaseline, FetchLastUserInput, BatchRows, PendingRow, Insertable;
      if fault != NoFault {
        DegradeToPending(row, fault == EverythingFails);
        return true;
      }
      var prev := PrevRequest(log, row);
      var baseline := FetchSystemBaseline(table, SessionOf(row));
      var userBase := FetchLastUserInput(table, SessionOf(row));
      var events := DeriveTurnEvents(OwnOf(row), PrevBodyOf(prev), baseline, userBase);
      var rows := MaterializeRows(row, prev, events);
      var _ := Create(rows);
      return false;
    }

    /** Own events under the request's identity, supplement events under its predecessor's. */
    static method MaterializeRows(row: LogRow, prev: Option<LogRow>, events: seq<TurnEvent>) returns (rows: seq<TurnRow>)
      ensures rows == BatchRows(row, prev, events)
    {
      rows := [];
      for i := 0 to |events|
        invariant rows == BatchRows(row, prev, events[..i])
      {
        assert events[..i + 1][..i] == events[..i];
        var identity := row;
        if events[i].forPrev {
          if prev.None? {
            continue;
          }
          identity := prev.value;
        }
        rows := rows + [RowFor(identity, SessionOf(row), events[i])];
      }
      assert events[..|events|] == events;
    }

    /** RecordTurnsForRequest: a request without a session has no turn store half. */
    method RecordTurnsForRequest(row: LogRow, log: seq<LogRow>, fault: Fault) returns (degraded: bool)
      modifies this
      ensures SessionOf(row) == "" ==> table == old(table) && !degraded
      ensures fault == NoFault ==> table == AfterWrite(old(table), log, row)
      ensures fault == StepFails && SessionOf(row) != "" ==> table == WithPending(old(table), row)
      ensures fault == EverythingFails ==> table == old(table)
      ensures SessionOf(row) != "" ==> degraded == (fault != NoFault)
    {
      if SessionOf(row) == "" {
        return false;
      }
      degraded := WriteForRequest(row, log, fault);
    }
  }

  // ----- Reading a transcript back -----

  /** ListTurnsByRequestIDs for one request. */
  function ListTurns(table: seq<TurnRow>, request: string): seq<TurnRow> {
    Sorted(Select(table, OfRequest(request)), BySeq)
  }

  predicate IsInput(ty: EventType) {
    ty == UserInput || ty == ToolResult || ty == Injected
  }

  /** The added messages: the input rows' elements in event order. */
  function ReadAdded(rows: seq<TurnRow>): seq<Json> {
    if rows == [] then []
    else
      var last := rows[|rows| - 1];
      ReadAdded(rows[..|rows| - 1])
      + if IsInput(last.eventType) && last.content.ElementContent? then [last.content.element] else []
  }

  predicate IsSupplementReply(r: TurnRow) {
    && r.eventType == AssistantReply && r.seqNo >= SUPPLEMENT_SEQ_BASE
    && r.content.ReplyContent? && r.content.source == Resend
  }

  /** The first supplement reply among the rows. */
  function SupplementReply(rows: seq<TurnRow>): Option<seq<Json>> {
    if rows == [] then None
    else if SupplementReply(rows[..|rows| - 1]).Some? then SupplementReply(rows[..|rows| - 1])
    else if IsSupplementReply(rows[|rows| - 1]) then Some(rows[|rows| - 1].content.copies)
    else None
  }

  /** assistantFor: inline and stream from the body row, then the supplement, then none. */
  function ReadReply(rows: seq<TurnRow>, row: LogRow): Assistant {
    if HasInline(row) then Assistant(Inline, row.response.truncated, Text(row.response.text))
    else if row.streamPath != "" && row.streamFile.text != "" then
      Assistant(Stream, row.streamFile.truncated, Text(row.streamFile.text))
    else match SupplementReply(rows)
      case Some(copies) => Assistant(Resend, false, Copies(copies))
      case None => Assistant(Unrecorded, false, NoRaw)
  }

  /** ListSystemTurnEntries: the session's system timeline. */
  function ReadTimeline(table: seq<TurnRow>, session: string): seq<SystemEntry> {
    EntriesOf(TypedRows(table, session, SystemPrompt))
  }

  function EntriesOf(rows: seq<TurnRow>): seq<SystemEntry> {
    if rows == [] then []
    else
      var last := rows[|rows| - 1];
      EntriesOf(rows[..|rows| - 1])
      + if last.content.SystemContent? then [SystemEntry(last.request, false, last.content.raw)] else []
  }
}
