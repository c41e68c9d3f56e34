/**
 The agent_session_turns table (internal/model/agent_session_turn.go and its
 migration): rows in insertion order, the UNIQUE(request_id, seq) key, and the
 filtered and ordered reads the engine issues.
 */
module Rows {
  import opened Classify
  import opened Derive

  datatype TurnRow = TurnRow(session: string, request: string, pk: nat, createdAt: int,
                             seqNo: nat, eventType: EventType, content: Content)

  // ----- The unique key -----

  predicate SameKey(a: TurnRow, b: TurnRow) {
    a.request == b.request && a.seqNo == b.seqNo
  }

  predicate Taken(table: seq<TurnRow>, row: TurnRow) {
    exists r :: r in table && SameKey(r, row)
  }

  /** No two rows share (request_id, seq). */
  predicate KeysUnique(table: seq<TurnRow>) {
    forall i, j :: 0 <= i < j < |table| ==> !SameKey(table[i], table[j])
  }

  predicate Insertable(table: seq<TurnRow>, rows: seq<TurnRow>) {
    KeysUnique(rows) && forall r :: r in rows ==> !Taken(table, r)
  }

  /** One atomic multi-row insert: all rows land, or the constraint refuses the whole batch. */
  function Insert(table: seq<TurnRow>, rows: seq<TurnRow>): (after: seq<TurnRow>)
    ensures KeysUnique(table) ==> KeysUnique(after)
    ensures table <= after
  {
    if Insertable(table, rows) then
      assert forall i, j :: 0 <= i < |table| && 0 <= j < |rows| ==> table[i] in table && rows[j] in rows;
      table + rows
    else table
  }

  // ----- Filters -----

  datatype Want = OfRequest(request: string) | OfSession(session: string) | OfType(session: string, eventType: EventType)

  predicate Matches(r: TurnRow, w: Want) {
    match w
    case OfRequest(id) => r.request == id
    case OfSession(s) => r.session == s
    case OfType(s, ty) => r.session == s && r.eventType == ty
  }

  /** WHERE: the matching rows, in insertion order. */
  function Select(rows: seq<TurnRow>, w: Want): seq<TurnRow> {
    if rows == [] then []
    else Select(rows[..|rows| - 1], w) + if Matches(rows[|rows| - 1], w) then [rows[|rows| - 1]] else []
  }

  lemma {:induction false} SelectConcat(a: seq<TurnRow>, b: seq<TurnRow>, w: Want)
    ensures Select(a + b, w) == Select(a, w) + Select(b, w)
  {
    if b == [] {
      assert a + b == a;
    } else {
      assert (a + b)[..|a + b| - 1] == a + b[..|b| - 1];
      SelectConcat(a, b[..|b| - 1], w);
    }
  }

  lemma {:induction false} SelectIn(rows: seq<TurnRow>, w: Want)
    ensures forall r :: r in Select(rows, w) <==> r in rows && Matches(r, w)
  {
    if rows != [] {
      SelectIn(rows[..|rows| - 1], w);
      assert rows == rows[..|rows| - 1] + [rows[|rows| - 1]];
    }
  }

  lemma {:induction false} SelectAll(rows: seq<TurnRow>, w: Want)
    requires forall r :: r in rows ==> Matches(r, w)
    ensures Select(rows, w) == rows
  {
    if rows != [] {
      SelectAll(rows[..|rows| - 1], w);
      assert rows[|rows| - 1] in rows;
      assert rows == rows[..|rows| - 1] + [rows[|rows| - 1]];
    }
  }

  lemma SelectNone(rows: seq<TurnRow>, w: Want)
    requires forall r :: r in rows ==> !Matches(r, w)
    ensures Select(rows, w) == []
  {
    SelectIn(rows, w);
    if Select(rows, w) != [] {
      assert Select(rows, w)[0] in Select(rows, w);
    }
  }

  lemma SelectOne(r: TurnRow, w: Want)
    ensures Select([r], w) == if Matches(r, w) then [r] else []
  {
    assert [r][..0] == [];
  }

  /** Selecting by `w` can be done inside any larger selection `v`. */
  lemma {:induction false} SelectWithin(rows: seq<TurnRow>, v: Want, w: Want)
    requires forall r :: r in rows && Matches(r, w) ==> Matches(r, v)
    ensures Select(rows, w) == Select(Select(rows, v), w)
  {
    if rows != [] {
      var init, last := rows[..|rows| - 1], rows[|rows| - 1];
      SelectWithin(init, v, w);
      assert last in rows;
      if Matches(last, v) {
        SelectConcat(Select(init, v), [last], w);
        SelectOne(last, w);
      } else {
        assert Select(rows, v) == Select(init, v);
      }
    }
  }

  // ----- Ordered reads -----

  datatype Order = BySeq | BySession

  /** ORDER BY seq (BySeq), or ORDER BY request_created_at, request_pk, seq (BySession). */
  predicate Leq(a: TurnRow, b: TurnRow, o: Order) {
    match o
    case BySeq => a.seqNo <= b.seqNo
    case BySession =>
      || a.createdAt < b.createdAt
      || (a.createdAt == b.createdAt && (a.pk < b.pk || (a.pk == b.pk && a.seqNo <= b.seqNo)))
  }

  predicate IsSorted(rows: seq<TurnRow>, o: Order) {
    forall i, j :: 0 <= i < j < |rows| ==> Leq(rows[i], rows[j], o)
  }

  function InsertRow(rows: seq<TurnRow>, r: TurnRow, o: Order): (out: seq<TurnRow>)
    ensures |out| == |rows| + 1
  {
    if rows == [] || Leq(rows[|rows| - 1], r, o) then rows + [r]
    else InsertRow(rows[..|rows| - 1], r, o) + [rows[|rows| - 1]]
  }

  /** The rows in order, ties in insertion order. */
  function Sorted(rows: seq<TurnRow>, o: Order): (out: seq<TurnRow>)
    ensures |out| == |rows|
  {
    if rows == [] then [] else InsertRow(Sorted(rows[..|rows| - 1], o), rows[|rows| - 1], o)
  }

  lemma {:induction false} SortedOfSorted(rows: seq<TurnRow>, o: Order)
    requires IsSorted(rows, o)
    ensures Sorted(rows, o) == rows
  {
    if rows != [] {
      SortedOfSorted(rows[..|rows| - 1], o);
      assert rows == rows[..|rows| - 1] + [rows[|rows| - 1]];
    }
  }

  lemma {:induction false} InsertRowMembers(rows: seq<TurnRow>, r: TurnRow, o: Order)
    ensures forall x :: x in InsertRow(rows, r, o) <==> x in rows || x == r
  {
    hide Leq;
    if rows != [] {
      InsertRowMembers(rows[..|rows| - 1], r, o);
      assert rows == rows[..|rows| - 1] + [rows[|rows| - 1]];
    }
  }

  lemma {:induction false} InsertRowCounts(rows: seq<TurnRow>, r: TurnRow, o: Order)
    ensures multiset(InsertRow(rows, r, o)) == multiset(rows) + multiset{r}
  {
    hide Leq;
    if rows != [] {
      InsertRowCounts(rows[..|rows| - 1], r, o);
      assert rows == rows[..|rows| - 1] + [rows[|rows| - 1]];
    }
  }

  lemma {:induction false} InsertRowKeeps(rows: seq<TurnRow>, r: TurnRow, o: Order)
    requires IsSorted(rows, o)
    ensures IsSorted(InsertRow(rows, r, o), o)
  {
    if rows != [] && !Leq(rows[|rows| - 1], r, o) {
      var init, last := rows[..|rows| - 1], rows[|rows| - 1];
      InsertRowKeeps(init, r, o);
      InsertRowMembers(init, r, o);
      var out := InsertRow(init, r, o);
      forall i | 0 <= i < |out| ensures Leq(out[i], last, o) {
        assert out[i] in out;
        if out[i] != r {
          var j :| 0 <= j < |init| && init[j] == out[i];
          assert rows[j] == init[j];
        }
      }
    }
  }

  /** The ordered read is a sorted rearrangement of the rows. */
  lemma {:induction false} SortedIsPermutation(rows: seq<TurnRow>, o: Order)
    ensures IsSorted(Sorted(rows, o), o)
    ensures multiset(Sorted(rows, o)) == multiset(rows)
  {
    if rows != [] {
      SortedIsPermutation(rows[..|rows| - 1], o);
      InsertRowKeeps(Sorted(rows[..|rows| - 1], o), rows[|rows| - 1], o);
      InsertRowCounts(Sorted(rows[..|rows| - 1], o), rows[|rows| - 1], o);
      assert rows == rows[..|rows| - 1] + [rows[|rows| - 1]];
    }
  }

  predicate StrictBySeq(rows: seq<TurnRow>) {
    forall i, j :: 0 <= i < j < |rows| ==> rows[i].seqNo < rows[j].seqNo
  }

  lemma LastRowsAgree(a: seq<TurnRow>, b: seq<TurnRow>)
    requires StrictBySeq(a) && IsSorted(b, BySeq)
    requires a != [] && b != [] && a[|a| - 1] in b && b[|b| - 1] in a
    ensures a[|a| - 1] == b[|b| - 1]
  {
    var i :| 0 <= i < |b| && b[i] == a[|a| - 1];
    var j :| 0 <= j < |a| && a[j] == b[|b| - 1];
    assert Leq(b[i], b[|b| - 1], BySeq) || i == |b| - 1;
  }

  lemma MultisetOfInit(a: seq<TurnRow>)
    requires a != []
    ensures multiset(a[..|a| - 1]) == multiset(a) - multiset{a[|a| - 1]}
    ensures a[|a| - 1] in multiset(a)
  {
    assert a == a[..|a| - 1] + [a[|a| - 1]];
  }

  lemma OrderOfInit(a: seq<TurnRow>, b: seq<TurnRow>)
    requires a != [] && b != []
    requires StrictBySeq(a) && IsSorted(b, BySeq)
    ensures StrictBySeq(a[..|a| - 1]) && IsSorted(b[..|b| - 1], BySeq)
  {
  }

  /** Two ordered lists of the same rows, one of them strictly, are the same list. */
  lemma {:induction false} StrictOrderIsUnique(a: seq<TurnRow>, b: seq<TurnRow>)
    requires StrictBySeq(a) && IsSorted(b, BySeq)
    requires |a| == |b| && multiset(a) == multiset(b)
    ensures a == b
  {
    hide StrictBySeq, IsSorted;
    if a != [] {
      var initA, initB := a[..|a| - 1], b[..|b| - 1];
      OrderOfInit(a, b);
      MultisetOfInit(a);
      MultisetOfInit(b);
      LastRowsAgree(a, b);
      StrictOrderIsUnique(initA, initB);
      assert a == initA + [a[|a| - 1]] && b == initB + [b[|b| - 1]];
    }
  }

  /** A read by seq returns any strictly ordered listing of the same rows. */
  lemma SortedIsTheListing(rows: seq<TurnRow>, listing: seq<TurnRow>)
    requires StrictBySeq(listing) && multiset(rows) == multiset(listing)
    ensures Sorted(rows, BySeq) == listing
  {
    SortedIsPermutation(rows, BySeq);
    assert |rows| == |multiset(rows)| == |multiset(listing)| == |listing|;
    StrictOrderIsUnique(listing, Sorted(rows, BySeq));
  }
}
