/**
 What a backfill stores, not only for whom: history that was never written reads
 back as the whole-session pass.
 */
module BackfillContent {
  import opened Wrappers
  import opened TurnStore
  import opened Parity
  import opened SessionRuns
  import opened LostWrites
  import opened Backfill

  // ----- History from nothing -----

  /** Within a session, primary keys ascend as session order does. */
  predicate IdsAgreeWithOrder(log: seq<LogRow>) {
    forall i, j :: 0 <= i < j < |log| && log[i].session == log[j].session ==> Earlier(log[i], log[j])
  }

  /** The writes of a pass, each with the whole log in view. */
  function OpsOf(log: seq<LogRow>, rows: seq<LogRow>): (ops: seq<WriteOp>)
    ensures |ops| == |rows| && forall i :: 0 <= i < |rows| ==> ops[i] == WriteOp(rows[i], log)
  {
    seq(|rows|, i requires 0 <= i < |rows| => WriteOp(rows[i], log))
  }

  /** A pass over an empty store is a run of writes. */
  lemma {:induction false} PassIsARun(log: seq<LogRow>, rows: seq<LogRow>)
    ensures Processed([], log, rows, map[]) == Run(OpsOf(log, rows))
  {
    hide AfterWrite;
    if rows != [] {
      var n := |rows| - 1;
      PassIsARun(log, rows[..n]);
      assert OpsOf(log, rows)[..n] == OpsOf(log, rows[..n]);
      var before := Run(OpsOf(log, rows[..n]));
      RecordedIs(before, log, rows[n], NONE);
      assert MishapOf(map[], rows[n]) == NONE;
      if SessionOf(rows[n]) == "" {
        NoSessionNoWrite(before, log, rows[n]);
      }
    }
  }

  lemma {:induction false} WrittenBefore(log: seq<LogRow>, rows: seq<LogRow>, k: nat, r: LogRow, session: string)
    requires k <= |rows|
    ensures r in RowsOf(OpsOf(log, rows)[..k], session) <==> r.session == Some(session) && r in rows[..k]
    decreases k
  {
    hide RowsOf;
    var ops := OpsOf(log, rows);
    if k > 0 {
      WrittenBefore(log, rows, k - 1, r, session);
      RowsOfOneMore(ops, k - 1, session);
      assert rows[..k] == rows[..k - 1] + [rows[k - 1]];
    } else {
      assert ops[..0] == [];
      NothingWrittenYet(session);
    }
  }

  /** Places in the log are ordered as their ids are. */
  lemma PlacesFollowIds(log: seq<LogRow>, a: LogRow, b: LogRow)
    requires IsLog(log) && IdsAgreeWithOrder(log) && a in log && b in log && a.session == b.session
    ensures a.pk < b.pk <==> Earlier(a, b)
  {
    var i :| 0 <= i < |log| && log[i] == a;
    var j :| 0 <= j < |log| && log[j] == b;
  }

  lemma PassIsInOrder(log: seq<LogRow>)
    requires IsLog(log) && IdsAgreeWithOrder(log)
    ensures InOrder(OpsOf(log, Candidates([], log, 0)))
  {
    hide Candidates, RowsOf, IdsAgreeWithOrder, IsLog;
    var cs := Candidates([], log, 0);
    var ops := OpsOf(log, cs);
    CandidatesAre([], log, 0);
    CandidateRequestsDiffer([], log);
    forall k | 0 <= k < |ops|
      ensures InOrderAt(ops, k)
    {
      var row, session := cs[k], SessionOf(cs[k]);
      assert row in cs;
      forall r | r in RowsOf(ops[..k], session)
        ensures r in log && Earlier(r, row)
      {
        WrittenBefore(log, cs, k, r, session);
        var i :| 0 <= i < k && cs[..k][i] == r;
        assert cs[i] in cs && cs[i].pk < cs[k].pk;
        PlacesFollowIds(log, r, row);
      }
      forall r | r in log && IsBefore(r, row)
        ensures r in RowsOf(ops[..k], session)
      {
        EarlierIsWritten(log, k, r);
        WrittenBefore(log, cs, k, r, session);
      }
    }
  }

  lemma EarlierIsWritten(log: seq<LogRow>, k: nat, r: LogRow)
    requires IsLog(log) && IdsAgreeWithOrder(log) && k < |Candidates([], log, 0)|
    requires r in log && IsBefore(r, Candidates([], log, 0)[k])
    ensures r in Candidates([], log, 0)[..k]
  {
    hide Candidates, IdsAgreeWithOrder;
    var cs := Candidates([], log, 0);
    CandidatesAre([], log, 0);
    assert cs[k] in cs;
    PlacesFollowIds(log, r, cs[k]);
    assert r in cs;
    var i :| 0 <= i < |cs| && cs[i] == r;
    assert i < k;
    assert cs[..k][i] == r;
  }

  /**
   A backfill of a store that holds nothing: each session reads back as the
   whole-session pass over its requests exactly when its writes fit or are lost
   unseen, just as if the requests had been written live.
   */
  lemma BackfilledHistoryReadsBack(log: seq<LogRow>, session: string)
    requires IsLog(log) && IdsAgreeWithOrder(log) && session != ""
    ensures (var rows := RowsOf(OpsOf(log, Candidates([], log, 0)), session);
             && (forall r :: r in rows <==> r in log && r.session == Some(session))
             && (ReadsBack(Processed([], log, Candidates([], log, 0), map[]), rows, session)
                 <==> forall k :: 0 <= k < |rows| ==> Fits(rows, k) || (k > 0 && Invisible(rows, k))))
  {
    hide Candidates, RowsOf, Fits, Invisible, ReadsBack, Run, Processed, InOrder, IdsAgreeWithOrder;
    var cs := Candidates([], log, 0);
    var ops := OpsOf(log, cs);
    CandidatesAre([], log, 0);
    PassIsARun(log, cs);
    PassIsInOrder(log);
    ParityExactlyWhen(ops, session);
    assert ops[..|cs|] == ops && cs[..|cs|] == cs;
    forall r ensures r in RowsOf(ops, session) <==> r in log && r.session == Some(session) {
      WrittenBefore(log, cs, |cs|, r, session);
    }
  }
}
