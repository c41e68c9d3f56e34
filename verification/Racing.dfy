/**
 Racing writers: live writes, backfill writes and pending markers for the same
 requests in any interleaving. A write's reads happen at some earlier moment, so
 its baselines may be arbitrarily stale; only the insert is atomic.
 */
module Racing {
  import opened Wrappers
  import opened Classify
  import opened Derive
  import opened Rows
  import opened TurnStore
  import opened Parity

  /** One insert as it reaches the table, with whatever its writer had read before. */
  datatype Attempt =
    | Write(row: LogRow, prev: Option<LogRow>, baseline: SystemBaseline, fold: FoldState)
    | Marker(row: LogRow)

  function OwnOfWrite(a: Attempt): seq<Payload>
    requires a.Write?
  {
    OwnPayloads(Brings(OwnOf(a.row), PrevBodyOf(a.prev)), a.baseline, a.fold, OwnSource(OwnOf(a.row)))
  }

  function SupplementOfWrite(a: Attempt): seq<Payload>
    requires a.Write?
  {
    SupplementPayloads(Brings(OwnOf(a.row), PrevBodyOf(a.prev)).copies, a.prev.Some?,
                       a.prev.Some? && HasInline(a.prev.value))
  }

  function RowsOfAttempt(a: Attempt): seq<TurnRow> {
    match a
    case Write(row, prev, baseline, fold) =>
      BatchRows(row, prev, Derived(OwnOf(row), PrevBodyOf(prev), baseline, fold))
    case Marker(row) => [PendingRow(row)]
  }

  /** The engine's batch is such an attempt, whatever table its reads saw. */
  lemma EngineWritesAreAttempts(seen: seq<TurnRow>, log: seq<LogRow>, row: LogRow)
    ensures var s := SessionOf(row);
            BatchFor(seen, log, row)
            == RowsOfAttempt(Write(row, PrevRequest(log, row), FetchSystemBaseline(seen, s), FetchLastUserInput(seen, s)))
  {
    hide Derived, BatchRows, FetchSystemBaseline, FetchLastUserInput, PrevRequest;
  }

  /** The shape the row-count bounds and the predecessor query give an attempt. */
  predicate Sound(a: Attempt) {
    a.Write? ==>
      && (a.prev.Some? ==> a.prev.value.request != a.row.request && SessionOf(a.prev.value) == SessionOf(a.row))
      && |OwnOfWrite(a)| <= SUPPLEMENT_SEQ_BASE
      && |SupplementOfWrite(a)| <= PENDING_SEQ - SUPPLEMENT_SEQ_BASE
  }

  function RunAttempts(attempts: seq<Attempt>): seq<TurnRow> {
    if attempts == [] then []
    else Insert(RunAttempts(attempts[..|attempts| - 1]), RowsOfAttempt(attempts[|attempts| - 1]))
  }

  function OwnPart(a: Attempt): seq<TurnRow>
    requires a.Write?
  {
    RowsAt(a.row, 0, OwnOfWrite(a))
  }

  function SupplementPart(a: Attempt): seq<TurnRow>
    requires a.Write?
  {
    if a.prev.None? then [] else RowsAt(a.prev.value, SUPPLEMENT_SEQ_BASE, SupplementOfWrite(a))
  }

  /** A write inserts its own part and its predecessor's supplement, nothing else. */
  lemma AttemptInParts(a: Attempt)
    requires a.Write? && Sound(a)
    ensures RowsOfAttempt(a) == OwnPart(a) + SupplementPart(a)
    ensures OwnPart(a) != [] && OwnPart(a)[0].seqNo == 0
  {
    hide Brings, ElementPayloads, SystemPayloads, SupplementPayloads, BatchRows;
    BatchRowsOfOwn(a.row, a.prev, OwnOfWrite(a));
    if a.prev.Some? {
      BatchRowsOfSupplement(a.row, a.prev.value, Numbered(0, OwnOfWrite(a), false), SupplementOfWrite(a));
    } else {
      NoSupplement(Brings(OwnOf(a.row), PrevBodyOf(a.prev)).copies, false);
      assert Numbered(0, OwnOfWrite(a), false) + Numbered(SUPPLEMENT_SEQ_BASE, [], true)
          == Numbered(0, OwnOfWrite(a), false);
    }
  }

  // ----- What a request can hold -----

  /** Nothing, or exactly one whole own batch of the request. */
  predicate IsOwnHolding(attempts: seq<Attempt>, id: string, own: seq<TurnRow>) {
    own == [] || exists a :: a in attempts && a.Write? && a.row.request == id && own == OwnPart(a)
  }

  predicate IsSupplementHolding(attempts: seq<Attempt>, id: string, sup: seq<TurnRow>) {
    sup == [] || exists a :: a in attempts && a.Write? && a.prev.Some? && a.prev.value.request == id && sup == SupplementPart(a)
  }

  predicate IsMarkerHolding(attempts: seq<Attempt>, id: string, mark: seq<TurnRow>) {
    mark == [] || exists a :: a in attempts && a.Marker? && a.row.request == id && mark == [PendingRow(a.row)]
  }

  datatype Holding = Holding(own: seq<TurnRow>, sup: seq<TurnRow>, mark: seq<TurnRow>)

  ghost predicate Holds(attempts: seq<Attempt>, id: string, h: Holding) {
    && IsOwnHolding(attempts, id, h.own)
    && IsSupplementHolding(attempts, id, h.sup)
    && IsMarkerHolding(attempts, id, h.mark)
  }

  /** A request's rows, in whatever order they were inserted, are one holding. */
  ghost predicate Accounts(attempts: seq<Attempt>, id: string, rows: seq<TurnRow>, h: Holding) {
    Holds(attempts, id, h) && multiset(rows) == multiset(h.own + h.sup + h.mark)
  }

  lemma HoldsMore(attempts: seq<Attempt>, more: seq<Attempt>, id: string, h: Holding)
    requires Holds(attempts, id, h)
    ensures Holds(attempts + more, id, h)
  {
    assert forall a :: a in attempts ==> a in attempts + more;
  }

  lemma TakenByHolding(table: seq<TurnRow>, id: string, h: Holding, row: TurnRow, other: TurnRow)
    requires multiset(Select(table, OfRequest(id))) == multiset(h.own + h.sup + h.mark)
    requires other in h.own + h.sup + h.mark && SameKey(other, row)
    ensures Taken(table, row)
  {
    hide Select;
    SelectIn(table, OfRequest(id));
    assert other in multiset(Select(table, OfRequest(id)));
    assert other in Select(table, OfRequest(id));
  }

  /** What a landed write adds to the rows of one request. */
  lemma RowsOfWriteFor(a: Attempt, id: string)
    requires a.Write? && Sound(a)
    ensures Select(RowsOfAttempt(a), OfRequest(id))
         == if a.row.request == id then OwnPart(a)
            else if a.prev.Some? && a.prev.value.request == id then SupplementPart(a)
            else []
  {
    hide Select, OwnOfWrite, SupplementOfWrite, RowsOfAttempt;
    AttemptInParts(a);
    var w := OfRequest(id);
    SelectConcat(OwnPart(a), SupplementPart(a), w);
    RowsAtIdentity(a.row, 0, OwnOfWrite(a));
    if a.row.request == id { SelectAll(OwnPart(a), w); } else { SelectNone(OwnPart(a), w); }
    if a.prev.Some? {
      RowsAtIdentity(a.prev.value, SUPPLEMENT_SEQ_BASE, SupplementOfWrite(a));
      if a.prev.value.request == id { SelectAll(SupplementPart(a), w); } else { SelectNone(SupplementPart(a), w); }
    } else {
      SelectNone([], w);
    }
  }

  lemma LandedOwnWasFree(attempts: seq<Attempt>, table: seq<TurnRow>, h: Holding, a: Attempt)
    requires a.Write? && Sound(a) && (forall x :: x in attempts ==> Sound(x))
    requires Accounts(attempts, a.row.request, Select(table, OfRequest(a.row.request)), h)
    requires Insertable(table, RowsOfAttempt(a))
    ensures h.own == []
  {
    hide Select, OwnOfWrite, SupplementOfWrite, RowsOfAttempt;
    AttemptInParts(a);
    if h.own != [] {
      OwnStartsAtZero(attempts, a.row.request, h.own);
      assert OwnPart(a)[0] in RowsOfAttempt(a);
      TakenByHolding(table, a.row.request, h, OwnPart(a)[0], h.own[0]);
    }
  }

  lemma LandedSupplementWasFree(attempts: seq<Attempt>, table: seq<TurnRow>, h: Holding, a: Attempt)
    requires a.Write? && Sound(a) && a.prev.Some? && SupplementPart(a) != []
    requires Accounts(attempts, a.prev.value.request, Select(table, OfRequest(a.prev.value.request)), h)
    requires Insertable(table, RowsOfAttempt(a))
    ensures h.sup == []
  {
    hide Select, OwnOfWrite, SupplementOfWrite, RowsOfAttempt;
    AttemptInParts(a);
    if h.sup != [] {
      SupplementStartsAtBase(attempts, a.prev.value.request, h.sup);
      assert SupplementPart(a)[0] in RowsOfAttempt(a);
      TakenByHolding(table, a.prev.value.request, h, SupplementPart(a)[0], h.sup[0]);
    }
  }

  lemma HoldingAfterWrite(attempts: seq<Attempt>, table: seq<TurnRow>, id: string, h: Holding, a: Attempt)
    returns (after: Holding)
    requires a.Write? && Sound(a) && (forall x :: x in attempts ==> Sound(x))
    requires Accounts(attempts, id, Select(table, OfRequest(id)), h)
    requires Insertable(table, RowsOfAttempt(a))
    ensures Accounts(attempts + [a], id, Select(table + RowsOfAttempt(a), OfRequest(id)), after)
  {
    hide Select, RowsOfAttempt, Sound, Insertable, OwnPart, SupplementPart, Holds;
    var rows, added := Select(table, OfRequest(id)), Select(RowsOfAttempt(a), OfRequest(id));
    HoldsMore(attempts, [a], id, h);
    SelectConcat(table, RowsOfAttempt(a), OfRequest(id));
    RowsOfWriteFor(a, id);
    after := h;
    if a.row.request == id {
      LandedOwnWasFree(attempts, table, h, a);
      after := h.(own := OwnPart(a));
      HoldsOwn(attempts, id, h, a);
      PutInOwn(rows, added, h);
    } else if a.prev.Some? && a.prev.value.request == id && SupplementPart(a) != [] {
      LandedSupplementWasFree(attempts, table, h, a);
      after := h.(sup := SupplementPart(a));
      HoldsSupplement(attempts, id, h, a);
      PutInSupplement(rows, added, h);
    } else {
      assert added == [] && rows + [] == rows;
    }
  }

  lemma HoldsOwn(attempts: seq<Attempt>, id: string, h: Holding, a: Attempt)
    requires Holds(attempts, id, h) && a.Write? && a.row.request == id
    ensures Holds(attempts + [a], id, h.(own := OwnPart(a)))
  {
    hide OwnPart;
    HoldsMore(attempts, [a], id, h);
    assert a in attempts + [a];
  }

  lemma HoldsSupplement(attempts: seq<Attempt>, id: string, h: Holding, a: Attempt)
    requires Holds(attempts, id, h) && a.Write? && a.prev.Some? && a.prev.value.request == id
    ensures Holds(attempts + [a], id, h.(sup := SupplementPart(a)))
  {
    hide SupplementPart;
    HoldsMore(attempts, [a], id, h);
    assert a in attempts + [a];
  }

  lemma PutInOwn(rows: seq<TurnRow>, added: seq<TurnRow>, h: Holding)
    requires h.own == [] && multiset(rows) == multiset(h.own + h.sup + h.mark)
    ensures multiset(rows + added) == multiset(added + h.sup + h.mark)
  {
    assert h.own + h.sup + h.mark == h.sup + h.mark && added + h.sup + h.mark == added + (h.sup + h.mark);
  }

  lemma PutInSupplement(rows: seq<TurnRow>, added: seq<TurnRow>, h: Holding)
    requires h.sup == [] && multiset(rows) == multiset(h.own + h.sup + h.mark)
    ensures multiset(rows + added) == multiset(h.own + added + h.mark)
  {
    assert h.own + h.sup + h.mark == h.own + h.mark;
  }

  lemma OwnStartsAtZero(attempts: seq<Attempt>, id: string, own: seq<TurnRow>)
    requires IsOwnHolding(attempts, id, own) && own != [] && forall x :: x in attempts ==> Sound(x)
    ensures own[0].seqNo == 0 && own[0].request == id
  {
    hide OwnOfWrite;
  }

  lemma SupplementStartsAtBase(attempts: seq<Attempt>, id: string, sup: seq<TurnRow>)
    requires IsSupplementHolding(attempts, id, sup) && sup != []
    ensures sup[0].seqNo == SUPPLEMENT_SEQ_BASE && sup[0].request == id
  {
    hide SupplementOfWrite;
  }

  lemma HoldingAfterMarker(attempts: seq<Attempt>, table: seq<TurnRow>, id: string, h: Holding, a: Attempt)
    returns (after: Holding)
    requires a.Marker?
    requires Accounts(attempts, id, Select(table, OfRequest(id)), h)
    requires Insertable(table, RowsOfAttempt(a))
    ensures Accounts(attempts + [a], id, Select(table + RowsOfAttempt(a), OfRequest(id)), after)
  {
    hide Select, OwnPart, SupplementPart;
    HoldsMore(attempts, [a], id, h);
    var p := PendingRow(a.row);
    SelectConcat(table, [p], OfRequest(id));
    SelectOne(p, OfRequest(id));
    after := h;
    if a.row.request == id {
      if h.mark != [] {
        assert p in RowsOfAttempt(a);
        TakenByHolding(table, id, h, p, h.mark[0]);
        assert false;
      }
      after := h.(mark := [p]);
      assert a in attempts + [a];
    }
  }

  lemma {:induction false} RunHolding(attempts: seq<Attempt>, id: string) returns (h: Holding)
    requires forall a :: a in attempts ==> Sound(a)
    ensures Accounts(attempts, id, Select(RunAttempts(attempts), OfRequest(id)), h)
  {
    hide Select, RowsOfAttempt, Sound, Insertable, Holds;
    if attempts == [] {
      SelectNone([], OfRequest(id));
      h := Holding([], [], []);
      assert Holds(attempts, id, h) by { EmptyHolding(attempts, id); }
    } else {
      var init, a := attempts[..|attempts| - 1], attempts[|attempts| - 1];
      h := RunHolding(init, id);
      assert attempts == init + [a];
      var table := RunAttempts(init);
      if Insertable(table, RowsOfAttempt(a)) {
        if a.Write? { h := HoldingAfterWrite(init, table, id, h, a); }
        else { h := HoldingAfterMarker(init, table, id, h, a); }
      } else {
        HoldsMore(init, [a], id, h);
      }
    }
  }

  lemma EmptyHolding(attempts: seq<Attempt>, id: string)
    ensures Holds(attempts, id, Holding([], [], []))
  {
  }

  lemma HoldingIsOrdered(attempts: seq<Attempt>, id: string, h: Holding)
    requires Holds(attempts, id, h) && forall a :: a in attempts ==> Sound(a)
    ensures StrictBySeq(h.own + h.sup + h.mark)
  {
    hide OwnOfWrite, SupplementOfWrite;
    assert forall i :: 0 <= i < |h.own| ==> h.own[i].seqNo == i < SUPPLEMENT_SEQ_BASE;
    assert forall i :: 0 <= i < |h.sup| ==> h.sup[i].seqNo == SUPPLEMENT_SEQ_BASE + i < PENDING_SEQ;
    assert forall i :: 0 <= i < |h.mark| ==> |h.mark| == 1 && h.mark[i].seqNo == PENDING_SEQ;
  }

  /**
   Whatever races, a request reads back as one whole own batch or none, then one
   whole supplement or none, then at most the pending marker, in that order.
   */
  lemma EveryRequestReadsWhole(attempts: seq<Attempt>, id: string)
    requires forall a :: a in attempts ==> Sound(a)
    ensures exists h :: Holds(attempts, id, h) && ListTurns(RunAttempts(attempts), id) == h.own + h.sup + h.mark
  {
    hide Select, RunAttempts, Sound, Sorted, Holds, IsSorted, StrictBySeq;
    var h := RunHolding(attempts, id);
    HoldingIsOrdered(attempts, id, h);
    SortedIsTheListing(Select(RunAttempts(attempts), OfRequest(id)), h.own + h.sup + h.mark);
  }

  /** The first of two writes for one request wins; the second changes nothing. */
  lemma SecondWriteLoses(attempts: seq<Attempt>, a: Attempt)
    requires Sound(a) && a.Write? && forall x :: x in attempts ==> Sound(x)
    requires exists r :: r in RunAttempts(attempts) && r.request == a.row.request && r.seqNo < SUPPLEMENT_SEQ_BASE
    ensures RunAttempts(attempts + [a]) == RunAttempts(attempts)
  {
    hide Select, OwnOfWrite, SupplementOfWrite, RowsOfAttempt, Holds;
    var id, table := a.row.request, RunAttempts(attempts);
    var h := RunHolding(attempts, id);
    SelectIn(table, OfRequest(id));
    var r :| r in table && r.request == id && r.seqNo < SUPPLEMENT_SEQ_BASE;
    assert r in multiset(Select(table, OfRequest(id)));
    assert r in h.own + h.sup + h.mark;
    LowRowsAreOwn(attempts, id, h, r);
    OwnStartsAtZero(attempts, id, h.own);
    AttemptInParts(a);
    assert OwnPart(a)[0] in RowsOfAttempt(a);
    TakenByHolding(table, id, h, OwnPart(a)[0], h.own[0]);
    assert (attempts + [a])[..|attempts|] == attempts;
  }

  lemma LowRowsAreOwn(attempts: seq<Attempt>, id: string, h: Holding, r: TurnRow)
    requires Holds(attempts, id, h) && r in h.own + h.sup + h.mark && r.seqNo < SUPPLEMENT_SEQ_BASE
    ensures h.own != [] && IsOwnHolding(attempts, id, h.own)
  {
    hide OwnOfWrite, SupplementOfWrite;
  }
}
