/**
 A gap filled late: one request's write never happened, or degraded to the pending
 marker, while every later request of its session was written; then the backfill
 replays it. Exactly when the store reads back as the whole-session pass after all.
 */
module LateFill {
  import opened Wrappers
  import opened Json
  import opened Classify
  import opened Replay
  import opened Derive
  import opened Rows
  import opened TurnStore
  import opened Parity
  import opened SessionRuns
  import opened Backfill
  import opened Gaps

  /** The log holds exactly `rows` for the session, and each own batch stays within its range. */
  predicate Logged(log: seq<LogRow>, rows: seq<LogRow>, session: string) {
    && IsLog(log) && IsSession(rows, session)
    && (forall r :: r in log && r.session == Some(session) ==> r in rows)
    && (forall r :: r in rows ==> r in log && StaysInRange(log, r))
  }

  /** The table after the first `n` writes of the session, all but that of request `g`. */
  function Around(log: seq<LogRow>, rows: seq<LogRow>, g: nat, marked: bool, n: nat): seq<TurnRow>
    requires n <= |rows|
  {
    if n == 0 then []
    else
      var before := Around(log, rows, g, marked, n - 1);
      if n - 1 != g then AfterWrite(before, log, rows[n - 1])
      else if marked then WithPending(before, rows[g])
      else before
  }

  /** The gap filled, after all the others. */
  function Filled(log: seq<LogRow>, rows: seq<LogRow>, g: nat, marked: bool): seq<TurnRow>
    requires g < |rows|
  {
    AfterWrite(Around(log, rows, g, marked, |rows|), log, rows[g])
  }

  // ----- What the store then holds -----

  /** The own events of request `k`, written once the first `n` requests are, `g` apart. */
  function OwnAfter(rows: seq<LogRow>, g: nat, k: nat, n: nat): seq<Payload>
    requires g < |rows| && k < |rows| && n <= |rows|
  {
    var q := Quiet(TurnsOf(rows), g);
    OwnPayloads(TurnsOf(rows)[k].brings, BaselineOfTimeline(Timeline(q, n)), FoldAt(q, n), OwnSource(OwnOf(rows[k])))
  }

  function SystemAfter(rows: seq<LogRow>, g: nat, k: nat, n: nat): seq<Payload>
    requires g < |rows| && k < |rows| && n <= |rows|
  {
    SystemPayloads(BaselineOfTimeline(Timeline(Quiet(TurnsOf(rows), g), n)), TurnsOf(rows)[k].brings.system)
  }

  function KeptAfter(rows: seq<LogRow>, g: nat, k: nat, n: nat): seq<Json>
    requires g < |rows| && k < |rows| && n <= |rows|
  {
    Kept(FoldAt(Quiet(TurnsOf(rows), g), n), TurnsOf(rows)[k].brings.elements)
  }

  /** Everything that write inserts. */
  function Part(rows: seq<LogRow>, g: nat, k: nat, n: nat): seq<TurnRow>
    requires g < |rows| && k < |rows| && n <= |rows|
  {
    RowsAt(rows[k], 0, OwnAfter(rows, g, k, n)) + if k == 0 then [] else SupplementRows(rows, k - 1)
  }

  function Marker(rows: seq<LogRow>, g: nat, marked: bool): seq<TurnRow>
    requires g < |rows|
  {
    if marked then [PendingRow(rows[g])] else []
  }

  function Held(rows: seq<LogRow>, g: nat, marked: bool, n: nat): seq<TurnRow>
    requires g < |rows| && n <= |rows|
  {
    if n == 0 then []
    else Held(rows, g, marked, n - 1) + if n - 1 == g then Marker(rows, g, marked) else Part(rows, g, n - 1, n - 1)
  }

  /** A marked gap leaves room below its marker for the supplement its successor writes. */
  predicate RoomForMarker(rows: seq<LogRow>, g: nat, marked: bool)
    requires g < |rows|
  {
    marked ==> |SupplementDue(rows, g)| <= PENDING_SEQ - SUPPLEMENT_SEQ_BASE
  }

  lemma PredecessorInLog(log: seq<LogRow>, rows: seq<LogRow>, session: string, k: nat)
    requires Logged(log, rows, session) && k < |rows|
    ensures PrevRequest(log, rows[k]) == PredecessorOf(rows, k)
  {
    hide PrevRequest, StaysInRange;
    var p := PrevRequest(log, rows[k]);
    PrevRequestIsLatest(log, rows[k]);
    assert rows[k] in rows;
    if k > 0 {
      assert rows[k - 1] in rows && IsBefore(rows[k - 1], rows[k]);
    }
    if p.Some? {
      assert p.value in rows;
      var i :| 0 <= i < |rows| && rows[i] == p.value;
      assert i < k;
    }
  }

  /** With the baselines read as `n` writes left them, request `k` writes exactly its part. */
  lemma BatchIsThePart(log: seq<LogRow>, rows: seq<LogRow>, session: string, g: nat, k: nat, n: nat, table: seq<TurnRow>)
    requires Logged(log, rows, session) && g < |rows| && k < |rows| && n <= |rows|
    requires FetchSystemBaseline(table, session) == BaselineOfTimeline(Timeline(Quiet(TurnsOf(rows), g), n))
    requires FetchLastUserInput(table, session) == FoldAt(Quiet(TurnsOf(rows), g), n)
    ensures BatchFor(table, log, rows[k]) == Part(rows, g, k, n)
  {
    hide PrevRequest, StaysInRange, Brings, OwnPayloads, RowsAt, FetchSystemBaseline, FetchLastUserInput, TurnsOf,
         BaselineOfTimeline, Timeline, FoldAt, Quiet, SupplementPayloads, BatchFor, IsLog;
    PredecessorInLog(log, rows, session, k);
    BatchInParts(table, log, rows[k]);
    BringsOfIs(log, rows[k]);
    BringsAgrees(rows, k);
    assert rows[k] in rows && SessionOf(rows[k]) == session;
  }

  /** Whose row it is: an own row, a supplement row of a request whose successor is written, or the marker. */
  predicate Placed(r: TurnRow, rows: seq<LogRow>, g: nat, marked: bool, n: nat)
    requires g < |rows| && n <= |rows|
  {
    || (exists i :: 0 <= i < n && i != g && SameIdentity(r, rows[i]) && r.seqNo < SUPPLEMENT_SEQ_BASE)
    || (exists i :: 0 <= i < n - 1 && i + 1 != g && r in SupplementRows(rows, i))
    || (g < n && r in Marker(rows, g, marked))
  }

  lemma OwnStaysInRange(log: seq<LogRow>, rows: seq<LogRow>, session: string, g: nat, k: nat, n: nat)
    requires Logged(log, rows, session) && g < |rows| && k < |rows| && n <= |rows|
    ensures 0 < |OwnAfter(rows, g, k, n)| <= SUPPLEMENT_SEQ_BASE
  {
    hide PrevRequest, Brings, Kept, ElementPayloads, Quiet, TurnsOf, FoldAt, Timeline, IsLog, IsSession;
    PredecessorInLog(log, rows, session, k);
    BringsOfIs(log, rows[k]);
    BringsAgrees(rows, k);
    assert rows[k] in rows;
    KeptIsNoLonger(FoldAt(Quiet(TurnsOf(rows), g), n), TurnsOf(rows)[k].brings.elements);
    ElementPayloadsLength(KeptAfter(rows, g, k, n));
  }

  lemma PartIsPlaced(log: seq<LogRow>, rows: seq<LogRow>, session: string, g: nat, k: nat, n: nat, r: TurnRow)
    requires Logged(log, rows, session) && g < |rows| && k < |rows| && n <= |rows| && r in Part(rows, g, k, n)
    ensures (SameIdentity(r, rows[k]) && r.seqNo < SUPPLEMENT_SEQ_BASE) || (k > 0 && r in SupplementRows(rows, k - 1))
  {
    hide OwnAfter, SupplementDue, Logged;
    OwnStaysInRange(log, rows, session, g, k, n);
    RowsAtIdentity(rows[k], 0, OwnAfter(rows, g, k, n));
  }

  lemma {:induction false} HeldIsPlaced(log: seq<LogRow>, rows: seq<LogRow>, session: string, g: nat, marked: bool,
                                        n: nat, r: TurnRow)
    requires Logged(log, rows, session) && g < |rows| && n <= |rows| && r in Held(rows, g, marked, n)
    ensures Placed(r, rows, g, marked, n)
  {
    hide Part, Logged, SupplementRows, SameIdentity;
    if r in Held(rows, g, marked, n - 1) {
      HeldIsPlaced(log, rows, session, g, marked, n - 1, r);
    } else if n - 1 != g {
      PartIsPlaced(log, rows, session, g, n - 1, n - 1, r);
    }
  }

  /** A write lands when what the table holds is placed and the request's own place is free. */
  lemma PartLands(log: seq<LogRow>, rows: seq<LogRow>, session: string, g: nat, marked: bool, k: nat, n: nat, m: nat)
    requires Logged(log, rows, session) && g < |rows| && k < |rows| && n <= |rows| && m <= |rows|
    requires RoomForMarker(rows, g, marked)
    requires k == g || k == m
    ensures Insertable(Held(rows, g, marked, m), Part(rows, g, k, n))
  {
    hide Part, Held, OwnAfter, SupplementDue, Logged, Placed;
    PartKeysUnique(log, rows, session, g, k, n);
    forall r | r in Part(rows, g, k, n) ensures !Taken(Held(rows, g, marked, m), r) {
      PartIsPlaced(log, rows, session, g, k, n, r);
      forall t | t in Held(rows, g, marked, m) ensures !SameKey(t, r) {
        HeldIsPlaced(log, rows, session, g, marked, m, t);
        NoClash(log, rows, session, g, marked, k, m, r, t);
      }
    }
  }

  lemma SupplementIdentityAt(rows: seq<LogRow>, i: nat, r: TurnRow)
    requires i < |rows| && r in SupplementRows(rows, i)
    ensures SameIdentity(r, rows[i]) && SUPPLEMENT_SEQ_BASE <= r.seqNo < SUPPLEMENT_SEQ_BASE + |SupplementDue(rows, i)|
  {
    hide SupplementDue;
    RowsAtIdentity(rows[i], SUPPLEMENT_SEQ_BASE, SupplementDue(rows, i));
  }

  lemma NoClash(log: seq<LogRow>, rows: seq<LogRow>, session: string, g: nat, marked: bool, k: nat, m: nat,
                r: TurnRow, t: TurnRow)
    requires Logged(log, rows, session) && g < |rows| && k < |rows| && m <= |rows| && (k == g || k == m)
    requires RoomForMarker(rows, g, marked)
    requires (SameIdentity(r, rows[k]) && r.seqNo < SUPPLEMENT_SEQ_BASE) || (k > 0 && r in SupplementRows(rows, k - 1))
    requires Placed(t, rows, g, marked, m)
    ensures !SameKey(t, r)
  {
    hide SupplementDue, SupplementRows, IsLog, StaysInRange;
    if !(SameIdentity(r, rows[k]) && r.seqNo < SUPPLEMENT_SEQ_BASE) {
      SupplementIdentityAt(rows, k - 1, r);
    }
    if g < m && t in Marker(rows, g, marked) {
      assert t == PendingRow(rows[g]);
    } else if i :| 0 <= i < m && i != g && SameIdentity(t, rows[i]) && t.seqNo < SUPPLEMENT_SEQ_BASE {
      assert i != k;
    } else {
      var i :| 0 <= i < m - 1 && i + 1 != g && t in SupplementRows(rows, i);
      SupplementIdentityAt(rows, i, t);
      assert i + 1 != k;
    }
  }

  lemma PartKeysUnique(log: seq<LogRow>, rows: seq<LogRow>, session: string, g: nat, k: nat, n: nat)
    requires Logged(log, rows, session) && g < |rows| && k < |rows| && n <= |rows|
    ensures KeysUnique(Part(rows, g, k, n))
  {
    hide OwnAfter, SupplementDue, IsLog, StaysInRange;
    RowsAtKeysUnique(rows[k], 0, OwnAfter(rows, g, k, n));
    if k > 0 {
      RowsAtKeysUnique(rows[k - 1], SUPPLEMENT_SEQ_BASE, SupplementDue(rows, k - 1));
      assert rows[k - 1].request != rows[k].request;
    }
  }

  // ----- The session-wide reads -----

  /** What a part holds of one type: its system change, the user inputs among its kept elements. */
  lemma TypedRowsOfPart(rows: seq<LogRow>, session: string, g: nat, k: nat, n: nat)
    requires IsSession(rows, session) && g < |rows| && k < |rows| && n <= |rows|
    ensures Select(Part(rows, g, k, n), OfType(session, SystemPrompt)) == RowsAt(rows[k], 0, SystemAfter(rows, g, k, n))
    ensures Select(Part(rows, g, k, n), OfType(session, UserInput))
         == Select(RowsAt(rows[k], |SystemAfter(rows, g, k, n)|, ElementPayloads(KeptAfter(rows, g, k, n))),
                   OfType(session, UserInput))
  {
    hide TurnsOf, Kept, ElementPayloads, BaselineOfTimeline, Timeline, FoldAt, Select, RowsAt, SupplementRows, Quiet;
    assert SessionOf(rows[k]) == session;
    var own := RowsAt(rows[k], 0, OwnAfter(rows, g, k, n));
    SystemPayloadsAre(BaselineOfTimeline(Timeline(Quiet(TurnsOf(rows), g), n)), TurnsOf(rows)[k].brings.system);
    TypedRowsOfOwn(rows[k], SystemAfter(rows, g, k, n), KeptAfter(rows, g, k, n),
                   Payload(AssistantReply, ReplyContent(OwnSource(OwnOf(rows[k])), [])));
    forall w | w == OfType(session, SystemPrompt) || w == OfType(session, UserInput)
      ensures Select(Part(rows, g, k, n), w) == Select(own, w)
    {
      if k > 0 {
        SupplementHoldsNoInput(rows, k - 1, w);
        SelectConcat(own, SupplementRows(rows, k - 1), w);
      } else {
        assert own + [] == own;
      }
    }
  }

  lemma MarkerIsNoInput(rows: seq<LogRow>, g: nat, marked: bool, session: string, ty: EventType)
    requires g < |rows| && ty != Pending
    ensures Select(Marker(rows, g, marked), OfType(session, ty)) == []
  {
    SelectNone(Marker(rows, g, marked), OfType(session, ty));
  }

  /** One more write adds its own rows of a type, the gap none. */
  lemma TypedRowsOfOneMore(rows: seq<LogRow>, session: string, g: nat, marked: bool, k: nat, ty: EventType)
    requires IsSession(rows, session) && g < |rows| && k < |rows| && ty != Pending
    ensures Select(Held(rows, g, marked, k + 1), OfType(session, ty))
         == Select(Held(rows, g, marked, k), OfType(session, ty))
            + if k == g then [] else Select(Part(rows, g, k, k), OfType(session, ty))
  {
    hide Part, Select, Marker;
    if k == g {
      MarkerIsNoInput(rows, g, marked, session, ty);
      SelectConcat(Held(rows, g, marked, k), Marker(rows, g, marked), OfType(session, ty));
    } else {
      SelectConcat(Held(rows, g, marked, k), Part(rows, g, k, k), OfType(session, ty));
    }
  }

  lemma {:induction false} EntriesOfMore(a: seq<TurnRow>, b: seq<TurnRow>)
    ensures EntriesOf(a + b) == EntriesOf(a) + EntriesOf(b)
  {
    if b == [] {
      assert a + b == a;
    } else {
      assert (a + b)[..|a + b| - 1] == a + b[..|b| - 1];
      EntriesOfMore(a, b[..|b| - 1]);
    }
  }

  /** The rows a system change makes, and the entry they read as. */
  lemma ChangeReadsAs(rows: seq<LogRow>, k: nat, t: seq<SystemEntry>)
    requires k < |rows|
    ensures (var v := TurnsOf(rows)[k].brings.system;
             var made := RowsAt(rows[k], 0, SystemPayloads(BaselineOfTimeline(t), v));
             if Changes(t, v)
             then |made| == 1 && EntriesOf(made) == [SystemEntry(rows[k].request, IsCapped(rows[k].body), v.value)]
                  && made[0].content == SystemContent(|t|, v.value)
             else made == [] && EntriesOf(made) == [])
  {
    hide TurnsOf;
    CappedBodyHasNoSystem(rows, k);
    var v := TurnsOf(rows)[k].brings.system;
    var made := RowsAt(rows[k], 0, SystemPayloads(BaselineOfTimeline(t), v));
    if Changes(t, v) {
      assert made == [made[0]];
      assert made[..0] == [] && EntriesOf(made[..0]) == [];
    }
  }

  /** The system rows read as the timeline of the session without `g`. */
  lemma {:induction false} HeldTimeline(rows: seq<LogRow>, session: string, g: nat, marked: bool, n: nat)
    requires IsSession(rows, session) && g < |rows| && n <= |rows|
    ensures (var sys := Select(Held(rows, g, marked, n), OfType(session, SystemPrompt));
             var t := Timeline(Quiet(TurnsOf(rows), g), n);
             EntriesOf(sys) == t && BaselineOfRows(sys) == BaselineOfTimeline(t))
  {
    hide Held, Part, Select, TurnsOf, RowsAt, EntriesOf, IsSession, Changes, SystemPayloads;
    var w := OfType(session, SystemPrompt);
    if n > 0 {
      var k, q := n - 1, Quiet(TurnsOf(rows), g);
      HeldTimeline(rows, session, g, marked, k);
      TypedRowsOfOneMore(rows, session, g, marked, k, SystemPrompt);
      TypedRowsOfPart(rows, session, g, k, k);
      ChangeReadsAs(rows, k, Timeline(q, k));
      var before := Select(Held(rows, g, marked, k), w);
      if k == g {
        assert before + [] == before;
        QuietChangesNothing(Timeline(q, k));
      } else {
        EntriesOfMore(before, Select(Part(rows, g, k, k), w));
      }
    } else {
      NothingHeld(rows, g, marked, w);
    }
  }

  lemma QuietChangesNothing(t: seq<SystemEntry>)
    ensures !Changes(t, None)
  {
  }

  lemma NothingHeld(rows: seq<LogRow>, g: nat, marked: bool, w: Want)
    requires g < |rows|
    ensures Select(Held(rows, g, marked, 0), w) == []
    ensures EntriesOf([]) == []
  {
  }

  /** The last user-input row speaks for the fold of the session without `g`. */
  lemma {:induction false} HeldFold(rows: seq<LogRow>, session: string, g: nat, marked: bool, n: nat)
    requires IsSession(rows, session) && g < |rows| && n <= |rows|
    ensures FoldOfRows(Select(Held(rows, g, marked, n), OfType(session, UserInput))) == FoldAt(Quiet(TurnsOf(rows), g), n)
  {
    hide Held, Part, Select, TurnsOf, RowsAt, FoldOfRows, Kept, After, StateOfRows, ElementPayloads, SystemAfter;
    var w := OfType(session, UserInput);
    if n > 0 {
      var k, q := n - 1, Quiet(TurnsOf(rows), g);
      HeldFold(rows, session, g, marked, k);
      TypedRowsOfOneMore(rows, session, g, marked, k, UserInput);
      var before := Select(Held(rows, g, marked, k), w);
      if k == g {
        assert before + [] == before;
        NothingMoves(FoldAt(q, k));
      } else {
        var base := |SystemAfter(rows, g, k, k)|;
        TypedRowsOfPart(rows, session, g, k, k);
        var users := Select(RowsAt(rows[k], base, ElementPayloads(KeptAfter(rows, g, k, k))), w);
        FoldOfElementRows(FoldAt(q, k), rows[k], base, KeptAfter(rows, g, k, k));
        StateIsReadableFromKept(FoldAt(q, k), TurnsOf(rows)[k].brings.elements);
        if users != [] {
          FoldOfMore(before, users);
        } else {
          assert before + users == before;
        }
      }
    } else {
      NothingHeld(rows, g, marked, w);
      FoldOfNoRows();
    }
  }

  lemma NothingMoves(f: FoldState)
    ensures After(f, []) == f
  {
  }

  /** Where the rows of a type stand in the session: each under a written request other than `g`. */
  lemma TypedRowsPlaced(log: seq<LogRow>, rows: seq<LogRow>, session: string, g: nat, marked: bool, n: nat,
                        ty: EventType, r: TurnRow)
    requires Logged(log, rows, session) && g < |rows| && n <= |rows| && (ty == SystemPrompt || ty == UserInput)
    requires r in Select(Held(rows, g, marked, n), OfType(session, ty))
    ensures exists i :: 0 <= i < n && i != g && SameIdentity(r, rows[i])
  {
    hide Held, SupplementRows, IsLog, IsSession, StaysInRange;
    var w := OfType(session, ty);
    SelectIn(Held(rows, g, marked, n), w);
    HeldIsPlaced(log, rows, session, g, marked, n, r);
    if i :| 0 <= i < n - 1 && i + 1 != g && r in SupplementRows(rows, i) {
      SupplementHoldsNoInput(rows, i, w);
      SelectIn(SupplementRows(rows, i), w);
    }
  }

  /** System rows and user inputs lie in session order while the gap is open. */
  lemma {:induction false} HeldIsOrdered(log: seq<LogRow>, rows: seq<LogRow>, session: string, g: nat, marked: bool,
                                         n: nat, ty: EventType)
    requires Logged(log, rows, session) && g < |rows| && n <= |rows| && (ty == SystemPrompt || ty == UserInput)
    ensures IsSorted(Select(Held(rows, g, marked, n), OfType(session, ty)), BySession)
  {
    hide Held, Part, Select, RowsAt, IsSorted, IsLog, StaysInRange, SystemAfter, KeptAfter, Matches, ElementPayloads;
    var w := OfType(session, ty);
    if n > 0 {
      var k := n - 1;
      HeldIsOrdered(log, rows, session, g, marked, k, ty);
      TypedRowsOfOneMore(rows, session, g, marked, k, ty);
      var before, new_ := Select(Held(rows, g, marked, k), w), Select(Part(rows, g, k, k), w);
      if k == g {
        assert before + [] == before;
      } else {
        PartIsOrdered(rows, session, g, k, k, ty);
        forall x, y | x in before && y in new_ ensures Leq(x, y, BySession) {
          TypedRowsPlaced(log, rows, session, g, marked, k, ty, x);
          assert Earlier(rows[0], rows[k]) || k == 0;
        }
        SortedConcat(before, new_, BySession);
      }
    } else {
      NothingHeld(rows, g, marked, w);
      OneIsSorted([], BySession);
    }
  }

  lemma PartIsOrdered(rows: seq<LogRow>, session: string, g: nat, k: nat, n: nat, ty: EventType)
    requires IsSession(rows, session) && g < |rows| && k < |rows| && n <= |rows| && (ty == SystemPrompt || ty == UserInput)
    ensures IsSorted(Select(Part(rows, g, k, n), OfType(session, ty)), BySession)
    ensures forall r :: r in Select(Part(rows, g, k, n), OfType(session, ty)) ==> SameIdentity(r, rows[k])
  {
    hide Part, Select, RowsAt, IsSorted, SystemAfter, KeptAfter, Matches, ElementPayloads;
    TypedRowsOfPart(rows, session, g, k, n);
    var sys, els := SystemAfter(rows, g, k, n), ElementPayloads(KeptAfter(rows, g, k, n));
    var w := OfType(session, ty);
    if ty == SystemPrompt {
      RowsAtIdentity(rows[k], 0, sys);
      ChangeIsShort(rows, g, k, n);
      OneIsSorted(RowsAt(rows[k], 0, sys), BySession);
    } else {
      RowsAtIdentity(rows[k], |sys|, els);
      SelectOfNumbered(rows[k], |sys|, els, w);
      SelectIn(RowsAt(rows[k], |sys|, els), w);
    }
  }

  lemma ChangeIsShort(rows: seq<LogRow>, g: nat, k: nat, n: nat)
    requires g < |rows| && k < |rows| && n <= |rows|
    ensures |RowsAt(rows[k], 0, SystemAfter(rows, g, k, n))| <= 1
  {
  }

  /** What the baseline queries answer with the gap open. */
  lemma BaselinesAround(log: seq<LogRow>, rows: seq<LogRow>, session: string, g: nat, marked: bool, n: nat)
    requires Logged(log, rows, session) && g < |rows| && n <= |rows|
    ensures (var table, q := Held(rows, g, marked, n), Quiet(TurnsOf(rows), g);
             && FetchSystemBaseline(table, session) == BaselineOfTimeline(Timeline(q, n))
             && FetchLastUserInput(table, session) == FoldAt(q, n))
  {
    hide Held, Select, TurnsOf, IsSorted, Sorted, BaselineOfRows, FoldOfRows, EntriesOf, IsLog, IsSession, StaysInRange,
         Timeline, FoldAt, Quiet, BaselineOfTimeline;
    forall ty | ty == SystemPrompt || ty == UserInput
      ensures TypedRows(Held(rows, g, marked, n), session, ty) == Select(Held(rows, g, marked, n), OfType(session, ty))
    {
      HeldIsOrdered(log, rows, session, g, marked, n, ty);
      SortedOfSorted(Select(Held(rows, g, marked, n), OfType(session, ty)), BySession);
    }
    HeldTimeline(rows, session, g, marked, n);
    HeldFold(rows, session, g, marked, n);
  }

  /** With the gap open, every other write inserted exactly its part. */
  lemma {:induction false} AroundIsHeld(log: seq<LogRow>, rows: seq<LogRow>, session: string, g: nat, marked: bool, n: nat)
    requires Logged(log, rows, session) && g < |rows| && n <= |rows| && RoomForMarker(rows, g, marked)
    ensures Around(log, rows, g, marked, n) == Held(rows, g, marked, n)
  {
    hide Part, BatchFor, Insertable, Logged, RoomForMarker, FetchSystemBaseline, FetchLastUserInput, Quiet, Timeline, FoldAt,
         TurnsOf, BaselineOfTimeline;
    if n > 0 {
      var k := n - 1;
      AroundIsHeld(log, rows, session, g, marked, k);
      if k == g {
        MarkerLands(log, rows, session, g, marked);
      } else {
        BaselinesAround(log, rows, session, g, marked, k);
        BatchIsThePart(log, rows, session, g, k, k, Held(rows, g, marked, k));
        PartLands(log, rows, session, g, marked, k, k, k);
        assert SessionOf(rows[k]) != "" by { InSession(log, rows, session, k); }
      }
    }
  }

  lemma InSession(log: seq<LogRow>, rows: seq<LogRow>, session: string, k: nat)
    requires Logged(log, rows, session) && k < |rows|
    ensures SessionOf(rows[k]) == session && session != "" && rows[k] in log
  {
    assert rows[k] in rows;
  }

  lemma MarkerLands(log: seq<LogRow>, rows: seq<LogRow>, session: string, g: nat, marked: bool)
    requires Logged(log, rows, session) && g < |rows|
    ensures Held(rows, g, marked, g) + Marker(rows, g, marked)
         == if marked then WithPending(Held(rows, g, marked, g), rows[g]) else Held(rows, g, marked, g)
  {
    hide Held, SupplementRows, IsLog, StaysInRange;
    var table := Held(rows, g, marked, g);
    forall t | t in table ensures t.request != rows[g].request {
      HeldIsPlaced(log, rows, session, g, marked, g, t);
      if i :| 0 <= i < g - 1 && i + 1 != g && t in SupplementRows(rows, i) {
        SupplementIdentityAt(rows, i, t);
      }
    }
  }

  /** The fill inserts its part last, by the baselines the whole rest of the session left. */
  lemma FilledIs(log: seq<LogRow>, rows: seq<LogRow>, session: string, g: nat, marked: bool)
    requires Logged(log, rows, session) && g < |rows| && RoomForMarker(rows, g, marked)
    ensures Filled(log, rows, g, marked) == Held(rows, g, marked, |rows|) + Part(rows, g, g, |rows|)
  {
    hide Part, BatchFor, Insertable, Logged, RoomForMarker, FetchSystemBaseline, FetchLastUserInput, Quiet, Timeline, FoldAt,
         TurnsOf, BaselineOfTimeline, Held, Around;
    var n := |rows|;
    AroundIsHeld(log, rows, session, g, marked, n);
    BaselinesAround(log, rows, session, g, marked, n);
    BatchIsThePart(log, rows, session, g, g, n, Held(rows, g, marked, n));
    PartLands(log, rows, session, g, marked, g, n, n);
    InSession(log, rows, session, g);
  }

  // ----- The filled timeline -----

  lemma {:induction false} InsertBetween(a: seq<TurnRow>, r: TurnRow, b: seq<TurnRow>, o: Order)
    requires forall x :: x in a ==> Leq(x, r, o)
    requires forall y :: y in b ==> !Leq(y, r, o)
    ensures InsertRow(a + b, r, o) == a + [r] + b
  {
    hide Leq;
    if b == [] {
      assert a + b == a;
    } else {
      var init, last := b[..|b| - 1], b[|b| - 1];
      assert (a + b)[..|a + b| - 1] == a + init;
      assert last in b;
      InsertBetween(a, r, init, o);
    }
  }

  /** The system rows written before the gap come first, the others are of later requests. */
  lemma {:induction false} SystemRowsSplit(rows: seq<LogRow>, session: string, g: nat, marked: bool, n: nat)
    requires IsSession(rows, session) && g < n <= |rows|
    ensures (var w := OfType(session, SystemPrompt);
             var early, all := Select(Held(rows, g, marked, g), w), Select(Held(rows, g, marked, n), w);
             && early <= all
             && forall r :: r in all[|early|..] ==> exists i :: g < i < n && SameIdentity(r, rows[i]))
    decreases n
  {
    hide Held, Part, Select, IsSession, SameIdentity;
    var w, k := OfType(session, SystemPrompt), n - 1;
    var early := Select(Held(rows, g, marked, g), w);
    TypedRowsOfOneMore(rows, session, g, marked, k, SystemPrompt);
    if k > g {
      SystemRowsSplit(rows, session, g, marked, k);
      PartIsOrdered(rows, session, g, k, k, SystemPrompt);
      var before, made := Select(Held(rows, g, marked, k), w), Select(Part(rows, g, k, k), w);
      assert (before + made)[|early|..] == before[|early|..] + made;
    }
  }

  /** What the fill sees of the system rows is all that lies around the gap, and its own change. */
  lemma SystemRowsInWriteOrder(log: seq<LogRow>, rows: seq<LogRow>, session: string, g: nat, marked: bool)
    requires Logged(log, rows, session) && g < |rows| && RoomForMarker(rows, g, marked)
    ensures Select(Filled(log, rows, g, marked), OfType(session, SystemPrompt))
         == Select(Held(rows, g, marked, |rows|), OfType(session, SystemPrompt))
            + RowsAt(rows[g], 0, SystemAfter(rows, g, g, |rows|))
  {
    hide Filled, Held, Part, Select, RowsAt, SystemAfter, IsLog, StaysInRange, RoomForMarker;
    FilledIs(log, rows, session, g, marked);
    SelectConcat(Held(rows, g, marked, |rows|), Part(rows, g, g, |rows|), OfType(session, SystemPrompt));
    TypedRowsOfPart(rows, session, g, g, |rows|);
  }

  /** The row of the fill sorts to its place among the others. */
  lemma SystemRowsOfFilled(log: seq<LogRow>, rows: seq<LogRow>, session: string, g: nat, marked: bool)
    requires Logged(log, rows, session) && g < |rows| && RoomForMarker(rows, g, marked)
    ensures (var w := OfType(session, SystemPrompt);
             var early, all := Select(Held(rows, g, marked, g), w), Select(Held(rows, g, marked, |rows|), w);
             && early <= all
             && TypedRows(Filled(log, rows, g, marked), session, SystemPrompt)
                == early + RowsAt(rows[g], 0, SystemAfter(rows, g, g, |rows|)) + all[|early|..])
  {
    hide Filled, Held, Part, Select, RowsAt, SystemAfter, IsSorted, Logged, Leq, RoomForMarker, SameIdentity, Sorted;
    var w := OfType(session, SystemPrompt);
    var early, all := Select(Held(rows, g, marked, g), w), Select(Held(rows, g, marked, |rows|), w);
    var made := RowsAt(rows[g], 0, SystemAfter(rows, g, g, |rows|));
    SystemRowsInWriteOrder(log, rows, session, g, marked);
    assert IsSession(rows, session) by { SessionIsLogged(log, rows, session); }
    SystemRowsSplit(rows, session, g, marked, |rows|);
    HeldIsOrdered(log, rows, session, g, marked, |rows|, SystemPrompt);
    ChangeIsShort(rows, g, g, |rows|);
    var late := all[|early|..];
    assert all == early + late;
    if made == [] {
      assert all + made == all == early + made + late;
      SortedOfSorted(all, BySession);
    } else {
      var r := made[0];
      assert made == [r];
      RowStandsBetween(log, rows, session, g, marked, r);
      SortsInBetween(early, r, late, BySession);
    }
  }

  lemma SessionIsLogged(log: seq<LogRow>, rows: seq<LogRow>, session: string)
    requires Logged(log, rows, session)
    ensures IsSession(rows, session)
  {
  }

  lemma SortsInBetween(a: seq<TurnRow>, r: TurnRow, b: seq<TurnRow>, o: Order)
    requires IsSorted(a + b, o)
    requires forall x :: x in a ==> Leq(x, r, o)
    requires forall y :: y in b ==> !Leq(y, r, o)
    ensures Sorted(a + b + [r], o) == a + [r] + b
  {
    hide Leq, IsSorted;
    assert (a + b + [r])[..|a + b|] == a + b;
    SortedOfSorted(a + b, o);
    InsertBetween(a, r, b, o);
  }

  lemma RowStandsBetween(log: seq<LogRow>, rows: seq<LogRow>, session: string, g: nat, marked: bool, r: TurnRow)
    requires Logged(log, rows, session) && g < |rows|
    requires r in RowsAt(rows[g], 0, SystemAfter(rows, g, g, |rows|))
    ensures (var w := OfType(session, SystemPrompt);
             var early, all := Select(Held(rows, g, marked, g), w), Select(Held(rows, g, marked, |rows|), w);
             && early <= all
             && (forall x :: x in early ==> Leq(x, r, BySession))
             && (forall y :: y in all[|early|..] ==> !Leq(y, r, BySession)))
  {
    hide Held, Select, RowsAt, SystemAfter, IsLog, StaysInRange, Leq, SameIdentity;
    var w := OfType(session, SystemPrompt);
    var early, all := Select(Held(rows, g, marked, g), w), Select(Held(rows, g, marked, |rows|), w);
    SystemRowsSplit(rows, session, g, marked, |rows|);
    RowsAtIdentity(rows[g], 0, SystemAfter(rows, g, g, |rows|));
    forall x | x in early ensures Leq(x, r, BySession) {
      TypedRowsPlaced(log, rows, session, g, marked, g, SystemPrompt, x);
      var i :| 0 <= i < g && i != g && SameIdentity(x, rows[i]);
      RowsFollowRequests(rows, session, i, g, x, r);
    }
    forall y | y in all[|early|..] ensures !Leq(y, r, BySession) {
      var i :| g < i < |rows| && SameIdentity(y, rows[i]);
      RowsFollowRequests(rows, session, g, i, r, y);
    }
  }

  lemma RowsFollowRequests(rows: seq<LogRow>, session: string, i: nat, j: nat, x: TurnRow, y: TurnRow)
    requires IsSession(rows, session) && i < j < |rows| && SameIdentity(x, rows[i]) && SameIdentity(y, rows[j])
    ensures Leq(x, y, BySession) && !Leq(y, x, BySession)
  {
  }

  lemma FilledTimelineIsRead(log: seq<LogRow>, rows: seq<LogRow>, session: string, g: nat, marked: bool)
    requires Logged(log, rows, session) && g < |rows| && RoomForMarker(rows, g, marked)
    ensures ReadTimeline(Filled(log, rows, g, marked), session) == FilledTimeline(TurnsOf(rows), g)
  {
    hide Filled, Held, Select, RowsAt, TypedRows, EntriesOf, IsLog, StaysInRange, RoomForMarker, TurnsOf, Quiet, Timeline,
         SystemPayloads, BaselineOfTimeline, IsSession, Changes;
    var w, n := OfType(session, SystemPrompt), |rows|;
    var early, all := Select(Held(rows, g, marked, g), w), Select(Held(rows, g, marked, n), w);
    var made := RowsAt(rows[g], 0, SystemAfter(rows, g, g, n));
    SystemRowsOfFilled(log, rows, session, g, marked);
    HeldTimeline(rows, session, g, marked, g);
    HeldTimeline(rows, session, g, marked, n);
    ChangeReadsAs(rows, g, Timeline(Quiet(TurnsOf(rows), g), n));
    EntriesOfMore(early + made, all[|early|..]);
    EntriesOfMore(early, made);
    assert all == early + all[|early|..];
    EntriesOfMore(early, all[|early|..]);
  }

  // ----- The filled blocks -----

  /** How many requests were written when `i` was. */
  function WrittenAt(rows: seq<LogRow>, g: nat, i: nat): (n: nat)
    requires i < |rows|
    ensures n <= |rows|
  {
    if i == g then |rows| else i
  }

  function OwnFinal(rows: seq<LogRow>, g: nat, i: nat): seq<TurnRow>
    requires g < |rows| && i < |rows|
  {
    RowsAt(rows[i], 0, OwnAfter(rows, g, i, WrittenAt(rows, g, i)))
  }

  lemma PartOfRequest(rows: seq<LogRow>, session: string, g: nat, k: nat, n: nat, i: nat)
    requires IsSession(rows, session) && g < |rows| && k < |rows| && n <= |rows| && i < |rows|
    ensures Select(Part(rows, g, k, n), OfRequest(rows[i].request))
         == if i == k then RowsAt(rows[k], 0, OwnAfter(rows, g, k, n))
            else if i + 1 == k then SupplementRows(rows, i) else []
  {
    hide OwnAfter, SupplementDue, Select, RowsAt;
    var w, own := OfRequest(rows[i].request), RowsAt(rows[k], 0, OwnAfter(rows, g, k, n));
    RowsAtIdentity(rows[k], 0, OwnAfter(rows, g, k, n));
    assert rows[i].request == rows[k].request <==> i == k;
    if i == k { SelectAll(own, w); } else { SelectNone(own, w); }
    if k > 0 {
      RowsAtIdentity(rows[k - 1], SUPPLEMENT_SEQ_BASE, SupplementDue(rows, k - 1));
      SelectConcat(own, SupplementRows(rows, k - 1), w);
      assert rows[i].request == rows[k - 1].request <==> i == k - 1;
      if i == k - 1 { SelectAll(SupplementRows(rows, i), w); } else { SelectNone(SupplementRows(rows, k - 1), w); }
    } else {
      assert own + [] == own;
    }
  }

  lemma MarkerOfRequest(rows: seq<LogRow>, session: string, g: nat, marked: bool, i: nat)
    requires IsSession(rows, session) && g < |rows| && i < |rows|
    ensures Select(Marker(rows, g, marked), OfRequest(rows[i].request)) == if i == g then Marker(rows, g, marked) else []
  {
    assert rows[i].request == rows[g].request <==> i == g;
    if i == g {
      SelectAll(Marker(rows, g, marked), OfRequest(rows[i].request));
    } else {
      SelectNone(Marker(rows, g, marked), OfRequest(rows[i].request));
    }
  }

  /** With the gap open a request holds its own rows, or the marker, then its successor's supplement. */
  lemma {:induction false} HeldOfRequest(rows: seq<LogRow>, session: string, g: nat, marked: bool, n: nat, i: nat)
    requires IsSession(rows, session) && g < |rows| && n <= |rows| && i < |rows|
    ensures Select(Held(rows, g, marked, n), OfRequest(rows[i].request))
         == (if i >= n then [] else if i == g then Marker(rows, g, marked) else OwnFinal(rows, g, i))
            + if i + 1 < n && i + 1 != g then SupplementRows(rows, i) else []
  {
    hide Part, Select, SupplementRows, Marker, RowsAt, OwnAfter, IsSession;
    var w := OfRequest(rows[i].request);
    if n > 0 {
      var k := n - 1;
      HeldOfRequest(rows, session, g, marked, k, i);
      if k == g {
        SelectConcat(Held(rows, g, marked, k), Marker(rows, g, marked), w);
        MarkerOfRequest(rows, session, g, marked, i);
      } else {
        SelectConcat(Held(rows, g, marked, k), Part(rows, g, k, k), w);
        PartOfRequest(rows, session, g, k, k, i);
      }
    } else {
      NothingHeld(rows, g, marked, w);
    }
  }

  lemma NoSuccessorNoSupplement(rows: seq<LogRow>, i: nat)
    requires i < |rows|
    ensures i + 1 == |rows| ==> SupplementRows(rows, i) == []
  {
    hide TurnsOf;
  }

  /** What a request's rows read as once the gap is filled. */
  lemma FilledTurns(log: seq<LogRow>, rows: seq<LogRow>, session: string, g: nat, marked: bool, i: nat)
    requires Logged(log, rows, session) && g < |rows| && RoomForMarker(rows, g, marked) && i < |rows|
    ensures ListTurns(Filled(log, rows, g, marked), rows[i].request)
         == OwnFinal(rows, g, i) + SupplementRows(rows, i) + if i == g then Marker(rows, g, marked) else []
  {
    hide Filled, Held, Part, Select, RowsAt, OwnAfter, SupplementRows, IsLog, IsSession, StaysInRange, RoomForMarker, Sorted, Marker;
    var w, n := OfRequest(rows[i].request), |rows|;
    var mark := if i == g then Marker(rows, g, marked) else [];
    var listing := OwnFinal(rows, g, i) + SupplementRows(rows, i) + mark;
    FilledIs(log, rows, session, g, marked);
    SelectConcat(Held(rows, g, marked, n), Part(rows, g, g, n), w);
    HeldOfRequest(rows, session, g, marked, n, i);
    PartOfRequest(rows, session, g, g, n, i);
    NoSuccessorNoSupplement(rows, i);
    assert multiset(Select(Filled(log, rows, g, marked), w)) == multiset(listing);
    ListingIsStrict(log, rows, session, g, marked, i);
    SortedIsTheListing(Select(Filled(log, rows, g, marked), w), listing);
  }

  lemma ListingIsStrict(log: seq<LogRow>, rows: seq<LogRow>, session: string, g: nat, marked: bool, i: nat)
    requires Logged(log, rows, session) && g < |rows| && RoomForMarker(rows, g, marked) && i < |rows|
    ensures StrictBySeq(OwnFinal(rows, g, i) + SupplementRows(rows, i) + if i == g then Marker(rows, g, marked) else [])
  {
    hide OwnAfter, SupplementDue, Logged;
    OwnStaysInRange(log, rows, session, g, i, WrittenAt(rows, g, i));
  }

  lemma OwnPartsFinal(rows: seq<LogRow>, g: nat, i: nat)
    requires g < |rows| && i < |rows|
    ensures (var n := WrittenAt(rows, g, i);
             OwnAfter(rows, g, i, n) == SystemAfter(rows, g, i, n) + ElementPayloads(KeptAfter(rows, g, i, n))
                                        + [Payload(AssistantReply, ReplyContent(OwnSource(OwnOf(rows[i])), []))])
  {
  }

  lemma MarkerReadsAsNothing(rows: seq<LogRow>, g: nat, marked: bool)
    requires g < |rows|
    ensures forall r :: r in Marker(rows, g, marked) ==> !IsInput(r.eventType) && !IsSupplementReply(r)
  {
  }

  lemma FilledAddedRead(rows: seq<LogRow>, g: nat, i: nat, more: seq<TurnRow>)
    requires g < |rows| && i < |rows| && forall r :: r in more ==> !IsInput(r.eventType)
    ensures ReadAdded(OwnFinal(rows, g, i) + more) == KeptAfter(rows, g, i, WrittenAt(rows, g, i))
  {
    hide TurnsOf, Kept, ElementPayloads, ReadAdded, BaselineOfTimeline, Timeline, FoldAt, SystemPayloads, Quiet, RowsAt, IsInput;
    var n := WrittenAt(rows, g, i);
    var sys, kept := SystemAfter(rows, g, i, n), KeptAfter(rows, g, i, n);
    var reply := Payload(AssistantReply, ReplyContent(OwnSource(OwnOf(rows[i])), []));
    OwnPartsFinal(rows, g, i);
    RowsAtConcat(rows[i], 0, sys + ElementPayloads(kept), [reply]);
    RowsAtOne(rows[i], |sys + ElementPayloads(kept)|, reply);
    ReplyIsNoInput();
    var body := RowsAt(rows[i], 0, sys + ElementPayloads(kept));
    var tail := RowsAt(rows[i], |sys + ElementPayloads(kept)|, [reply]) + more;
    assert OwnFinal(rows, g, i) + more == body + tail;
    SystemPayloadsAre(BaselineOfTimeline(Timeline(Quiet(TurnsOf(rows), g), n)), TurnsOf(rows)[i].brings.system);
    ReadAddedOfElements(rows[i], sys, kept);
    ReadAddedOfConcat(body, tail);
  }

  lemma ReplyIsNoInput()
    ensures !IsInput(AssistantReply)
  {
  }

  lemma OwnFinalHoldsNoSupplement(rows: seq<LogRow>, g: nat, i: nat)
    requires g < |rows| && i < |rows|
    ensures forall r :: r in OwnFinal(rows, g, i) ==> !IsSupplementReply(r)
  {
    hide TurnsOf, Kept, ElementPayloads, BaselineOfTimeline, Timeline, FoldAt, Quiet, RowsAt, SystemPayloads;
    var n := WrittenAt(rows, g, i);
    RowsAtIdentity(rows[i], 0, OwnAfter(rows, g, i, n));
    OwnPartsFinal(rows, g, i);
    SystemPayloadsAre(BaselineOfTimeline(Timeline(Quiet(TurnsOf(rows), g), n)), TurnsOf(rows)[i].brings.system);
    forall r | r in OwnFinal(rows, g, i) ensures !IsSupplementReply(r) {
      var p := Payload(r.eventType, r.content);
      assert p in OwnAfter(rows, g, i, n);
      if p in ElementPayloads(KeptAfter(rows, g, i, n)) {
        ElementPayloadsAre(KeptAfter(rows, g, i, n), p);
      }
    }
  }

  lemma FilledReply(rows: seq<LogRow>, g: nat, marked: bool, i: nat)
    requires g < |rows| && i < |rows|
    ensures ReadReply(OwnFinal(rows, g, i) + SupplementRows(rows, i) + (if i == g then Marker(rows, g, marked) else []), rows[i])
         == Attribute(rows[i].response, StreamOf(rows[i]), CopiesAt(TurnsOf(rows), i + 1))
  {
    hide OwnFinal, SupplementRows, TurnsOf, SupplementReply, IsSupplementReply, Marker;
    var own, sup, mark := OwnFinal(rows, g, i), SupplementRows(rows, i), if i == g then Marker(rows, g, marked) else [];
    var all := own + sup + mark;
    OwnFinalHoldsNoSupplement(rows, g, i);
    MarkerReadsAsNothing(rows, g, marked);
    if !HasInline(rows[i]) && StreamOf(rows[i]).text == "" {
      SupplementIsDue(rows, i);
      if CopiesAt(TurnsOf(rows), i + 1) == [] {
        NoSupplementReply(all);
      } else {
        assert all[..|own|] == own;
        FirstSupplementReply(all, |own|);
      }
    }
  }

  lemma KeptIsFilled(rows: seq<LogRow>, g: nat, i: nat)
    requires g < |rows| && i < |rows|
    ensures KeptAfter(rows, g, i, WrittenAt(rows, g, i)) == FilledAdded(TurnsOf(rows), g, i)
  {
  }

  /** What one block reads back as: all of it the pass's, but for its added elements and its system entry. */
  lemma FilledBlock(log: seq<LogRow>, rows: seq<LogRow>, session: string, g: nat, marked: bool, i: nat)
    requires Logged(log, rows, session) && g < |rows| && RoomForMarker(rows, g, marked) && i < |rows|
    ensures ReadBlock(Filled(log, rows, g, marked), rows, session, i)
         == BlockAt(TurnsOf(rows), i).(added := FilledAdded(TurnsOf(rows), g, i),
                                       system := EffectiveAfter(FilledTimeline(TurnsOf(rows), g), rows, i + 1))
  {
    hide Filled, OwnFinal, SupplementRows, Logged, RoomForMarker, TurnsOf, ListTurns, ReadTimeline, EffectiveAfter,
         ReadAdded, ReadReply, Attribute, KeptAfter, FilledAdded, AddedAt, Timeline, FilledTimeline, Marker, IsInput;
    var mark := if i == g then Marker(rows, g, marked) else [];
    FilledTurns(log, rows, session, g, marked, i);
    SupplementIsNoInput(rows, i);
    MarkerReadsAsNothing(rows, g, marked);
    assert OwnFinal(rows, g, i) + (SupplementRows(rows, i) + mark) == OwnFinal(rows, g, i) + SupplementRows(rows, i) + mark;
    FilledAddedRead(rows, g, i, SupplementRows(rows, i) + mark);
    FilledReply(rows, g, marked, i);
    assert KeptAfter(rows, g, i, WrittenAt(rows, g, i)) == FilledAdded(TurnsOf(rows), g, i) by { KeptIsFilled(rows, g, i); }
    FilledTimelineIsRead(log, rows, session, g, marked);
  }

  /** So the whole session reads back as the pass exactly when the timeline and the added elements do. */
  lemma FilledReadsBack(log: seq<LogRow>, rows: seq<LogRow>, session: string, g: nat, marked: bool)
    requires Logged(log, rows, session) && g < |rows| && RoomForMarker(rows, g, marked)
    ensures ReadsBack(Filled(log, rows, g, marked), rows, session)
       <==> && FilledTimeline(TurnsOf(rows), g) == Timeline(TurnsOf(rows), |rows|)
            && forall i :: 0 <= i < |rows| ==> FilledAdded(TurnsOf(rows), g, i) == AddedAt(TurnsOf(rows), i)
  {
    hide Filled, RoomForMarker, TurnsOf, ReadTimeline, ReadBlock, EffectiveAfter, Attribute, FilledAdded, AddedAt, Timeline,
         FilledTimeline, IsLog, StaysInRange, IsSession;
    FilledTimelineIsRead(log, rows, session, g, marked);
    forall i | 0 <= i < |rows|
      ensures FilledTimeline(TurnsOf(rows), g) == Timeline(TurnsOf(rows), |rows|) ==>
                (ReadBlock(Filled(log, rows, g, marked), rows, session, i) == BlockAt(TurnsOf(rows), i)
                 <==> FilledAdded(TurnsOf(rows), g, i) == AddedAt(TurnsOf(rows), i))
    {
      FilledBlock(log, rows, session, g, marked, i);
      EffectiveIsTheLastEntry(rows, session, i + 1);
    }
  }

  // ----- Exactly when the gap closes -----

  /**
   For every session, every gap in it and every continuation: once the gap is
   filled the store reads back as the whole-session pass if and only if the
   session's system values and its inputs allow it.
   */
  lemma LateFillReadsBackExactlyWhen(log: seq<LogRow>, rows: seq<LogRow>, session: string, g: nat, marked: bool)
    requires Logged(log, rows, session) && g < |rows| && RoomForMarker(rows, g, marked)
    ensures ReadsBack(Filled(log, rows, g, marked), rows, session)
       <==> SystemAllows(TurnsOf(rows), g) && InputsAllow(TurnsOf(rows), g)
  {
    hide Filled, RoomForMarker, Timeline, FilledTimeline, FilledAdded, AddedAt, IsLog, StaysInRange, ReadsBack,
         SystemAllows, InputsAllow;
    FilledReadsBack(log, rows, session, g, marked);
    TimelineFilledExactlyWhen(TurnsOf(rows), g);
    AddedFilledExactlyWhen(TurnsOf(rows), g);
  }

  /** A request that was written owns a row, the gap does not. */
  lemma OnlyTheGapIsOpen(log: seq<LogRow>, rows: seq<LogRow>, session: string, g: nat, marked: bool, i: nat)
    requires Logged(log, rows, session) && g < |rows| && i < |rows|
    ensures Owned(Held(rows, g, marked, |rows|), rows[i].request) <==> i != g
  {
    hide Held, SupplementRows, IsLog, StaysInRange, OwnAfter, SystemAfter, KeptAfter, Select;
    var table, w := Held(rows, g, marked, |rows|), OfRequest(rows[i].request);
    if i == g {
      forall t | t in table && t.request == rows[g].request ensures t.eventType == Pending || t.seqNo >= SUPPLEMENT_SEQ_BASE {
        HeldIsPlaced(log, rows, session, g, marked, |rows|, t);
        if j :| 0 <= j < |rows| - 1 && j + 1 != g && t in SupplementRows(rows, j) {
          SupplementIdentityAt(rows, j, t);
        }
      }
    } else {
      HeldOfRequest(rows, session, g, marked, |rows|, i);
      OwnStaysInRange(log, rows, session, g, i, i);
      OwnPartsFinal(rows, g, i);
      var own := OwnFinal(rows, g, i);
      assert own[|own| - 1] in Select(table, w);
      SelectIn(table, w);
    }
  }

  /** For a log of this session alone, a pass over the table with the gap open replays `g` and nothing else. */
  lemma PassFillsTheGap(log: seq<LogRow>, rows: seq<LogRow>, session: string, g: nat, marked: bool)
    requires Logged(log, rows, session) && g < |rows| && RoomForMarker(rows, g, marked)
    requires forall r :: r in log ==> r.session == Some(session)
    ensures (var table := Around(log, rows, g, marked, |rows|);
             && Candidates(table, log, 0) == [rows[g]]
             && Processed(table, log, Candidates(table, log, 0), map[]) == Filled(log, rows, g, marked))
  {
    hide Held, Owned, StaysInRange, Around, RoomForMarker, Candidates;
    var table := Around(log, rows, g, marked, |rows|);
    AroundIsHeld(log, rows, session, g, marked, |rows|);
    CandidatesAre(table, log, 0);
    forall r ensures r in Candidates(table, log, 0) <==> r in [rows[g]] {
      assert rows[g] in rows;
      OnlyTheGapIsOpen(log, rows, session, g, marked, g);
      if r in log && IsCandidate(table, r, 0) {
        var i :| 0 <= i < |rows| && rows[i] == r;
        OnlyTheGapIsOpen(log, rows, session, g, marked, i);
      }
    }
    AscendingIsUnique(Candidates(table, log, 0), [rows[g]]);
    ProcessedOne(table, log, rows[g], map[]);
    InSession(log, rows, session, g);
    RecordedIs(table, log, rows[g], NONE);
  }

  // ----- A gap that does not close -----

  /** A request that brings a system value and nothing else. */
  function Prompt(id: string, pk: nat, at: int, system: Json): LogRow {
    LogRow(Some("s"), id, pk, at, RequestBody(1, Some(map["system" := system])), Capture("", false), "", Capture("", false))
  }

  /** Two requests of one session under one system prompt. */
  function TwoPrompts(system: Json): seq<LogRow> {
    [Prompt("a", 1, 0, system), Prompt("b", 2, 1, system)]
  }

  lemma PromptParses(row: LogRow, system: Json)
    requires system != Null && row.body == RequestBody(1, Some(map["system" := system]))
    ensures Parse(row.body, IsCapped(row.body)) == ParsedBody([], Some(system))
  {
  }

  lemma PromptBrings(log: seq<LogRow>, row: LogRow, system: Json)
    requires system != Null && row.body == RequestBody(1, Some(map["system" := system]))
    ensures BringsOf(log, row) == Contribution([], [], Some(system))
  {
    hide PrevRequest, Parse, OfRole, Elements;
    PromptParses(row, system);
    NothingOfNothing();
  }

  /** The first request's value is the next one's too, so filled late it is never recorded where it was first seen. */
  lemma FirstPromptFilledLate(system: Json, marked: bool)
    requires system != Null
    ensures (var rows := TwoPrompts(system);
             Logged(rows, rows, "s") && !ReadsBack(Filled(rows, rows, 0, marked), rows, "s"))
  {
    hide ReadsBack, Filled, BringsOf, TurnsOf;
    var rows := TwoPrompts(system);
    forall r | r in rows ensures StaysInRange(rows, r) {
      PromptBrings(rows, r, system);
    }
    forall k | 0 <= k < 2 ensures TurnsOf(rows)[k].brings == Contribution([], [], Some(system)) {
      PredecessorInLog(rows, rows, "s", k);
      PromptBrings(rows, rows[k], system);
      BringsOfIs(rows, rows[k]);
      BringsAgrees(rows, k);
    }
    assert SupplementDue(rows, 0) == [];
    assert FirstValue(TurnsOf(rows), 1, 1) == LastValue(TurnsOf(rows), 0, 0) == None;
    assert FirstValue(TurnsOf(rows), 1, 2) == Some(system);
    LateFillReadsBackExactlyWhen(rows, rows, "s", 0, marked);
  }
}
