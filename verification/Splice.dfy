/**
 The byte splice of input compression (internal/compress/splice.go): replacements by
 byte range over a body that is never re-encoded.
 */
module Splice {
  import opened Wrappers

  datatype Replacement = Replacement(start: int, end: int, text: Bytes)

  function Growth(r: Replacement): int {
    |r.text| - (r.end - r.start)
  }

  // ----- Sorting -----

  predicate ByStart(reps: seq<Replacement>) {
    forall i, j :: 0 <= i < j < |reps| ==> reps[i].start <= reps[j].start
  }

  /** The sort is not stable: any arrangement by start may come out. */
  predicate IsArrangement(sorted: seq<Replacement>, reps: seq<Replacement>) {
    ByStart(sorted) && multiset(sorted) == multiset(reps)
  }

  lemma SlottedIn(sorted: seq<Replacement>, at: nat, reps: seq<Replacement>, n: nat)
    requires n < |reps| && IsArrangement(sorted, reps[..n])
    requires at <= |sorted| && forall k :: 0 <= k < at ==> sorted[k].start <= reps[n].start
    requires at < |sorted| ==> reps[n].start <= sorted[at].start
    ensures IsArrangement(sorted[..at] + [reps[n]] + sorted[at..], reps[..n + 1])
  {
    hide ByStart;
    StaysByStart(sorted, at, reps[n]);
    SlotCounts(sorted, at, reps[n]);
    PrefixCounts(reps, n);
  }

  lemma SlotCounts(sorted: seq<Replacement>, at: nat, r: Replacement)
    requires at <= |sorted|
    ensures multiset(sorted[..at] + [r] + sorted[at..]) == multiset(sorted) + multiset{r}
  {
    assert sorted == sorted[..at] + sorted[at..];
  }

  lemma PrefixCounts(reps: seq<Replacement>, n: nat)
    requires n < |reps|
    ensures multiset(reps[..n + 1]) == multiset(reps[..n]) + multiset{reps[n]}
  {
    assert reps[..n + 1] == reps[..n] + [reps[n]];
  }

  lemma StaysByStart(sorted: seq<Replacement>, at: nat, r: Replacement)
    requires ByStart(sorted) && at <= |sorted| && forall k :: 0 <= k < at ==> sorted[k].start <= r.start
    requires at < |sorted| ==> r.start <= sorted[at].start
    ensures ByStart(sorted[..at] + [r] + sorted[at..])
  {
  }

  lemma NothingToArrange()
    ensures IsArrangement([], [])
  {
  }

  method Arrange(reps: seq<Replacement>) returns (sorted: seq<Replacement>)
    ensures IsArrangement(sorted, reps)
  {
    hide IsArrangement;
    sorted := [];
    NothingToArrange();
    for i := 0 to |reps|
      invariant IsArrangement(sorted, reps[..i])
    {
      var at := 0;
      while at < |sorted| && sorted[at].start < reps[i].start
        invariant at <= |sorted|
        invariant forall k :: 0 <= k < at ==> sorted[k].start <= reps[i].start
      {
        at := at + 1;
      }
      SlottedIn(sorted, at, reps, i);
      sorted := sorted[..at] + [reps[i]] + sorted[at..];
    }
    assert reps[..|reps|] == reps;
  }

  // ----- The splice -----

  /** A range the splice passes over: before the cursor, out of the body, or inside out. */
  predicate Unusable(r: Replacement, cursor: nat, size: nat) {
    r.start < cursor || r.end > size || r.start > r.end
  }

  function Spliced(body: Bytes, cursor: nat, sorted: seq<Replacement>): Bytes
    requires cursor <= |body|
    decreases |sorted|
  {
    if sorted == [] then body[cursor..]
    else if Unusable(sorted[0], cursor, |body|) then Spliced(body, cursor, sorted[1..])
    else body[cursor..sorted[0].start] + sorted[0].text + Spliced(body, sorted[0].end, sorted[1..])
  }

  method SpliceBody(body: Bytes, reps: seq<Replacement>) returns (out: Bytes)
    ensures exists sorted :: IsArrangement(sorted, reps) && out == Spliced(body, 0, sorted)
    ensures Separate(body, reps) ==> IsSplice(body, reps, out)
    ensures Separate(body, reps) ==> forall sorted :: IsArrangement(sorted, reps) ==> out == Spliced(body, 0, sorted)
  {
    var sorted := Arrange(reps);
    if |reps| == 0 {
      out := body;
      assert IsArrangement([], reps) && Spliced(body, 0, []) == body;
    } else {
      out := [];
      var cursor: nat := 0;
      for i := 0 to |sorted|
        invariant cursor <= |body|
        invariant out + Spliced(body, cursor, sorted[i..]) == Spliced(body, 0, sorted)
      {
        var r := sorted[i];
        assert sorted[i..][0] == r && sorted[i..][1..] == sorted[i + 1..];
        if r.start < cursor || r.end > |body| || r.start > r.end {
          continue;
        }
        assert out + Spliced(body, cursor, sorted[i..])
            == out + body[cursor..r.start] + r.text + Spliced(body, r.end, sorted[i + 1..]);
        out := out + body[cursor..r.start];
        out := out + r.text;
        cursor := r.end;
      }
      out := out + body[cursor..];
      assert out == Spliced(body, 0, sorted);
    }
    if Separate(body, reps) {
      forall other | IsArrangement(other, reps)
        ensures out == Spliced(body, 0, other)
      {
        var mine :| IsArrangement(mine, reps) && out == Spliced(body, 0, mine);
        ArrangementIsUnique(body, mine, other, reps);
      }
      assert IsArrangement(sorted, reps);
      SpliceIsPointwise(body, sorted, reps);
    }
  }

  // ----- What a splice of separate ranges is -----

  /** In bounds, not empty, and no two ranges overlapping. */
  predicate Separate(body: Bytes, reps: seq<Replacement>) {
    && (forall i :: 0 <= i < |reps| ==> 0 <= reps[i].start < reps[i].end <= |body|)
    && (forall i, j :: 0 <= i < j < |reps| ==> reps[i].end <= reps[j].start || reps[j].end <= reps[i].start)
  }

  /** How far position p has moved: the growth of every range that ends by it. */
  function Shift(reps: seq<Replacement>, p: int): int {
    if reps == [] then 0 else (if reps[0].end <= p then Growth(reps[0]) else 0) + Shift(reps[1..], p)
  }

  function TotalGrowth(reps: seq<Replacement>): int {
    if reps == [] then 0 else Growth(reps[0]) + TotalGrowth(reps[1..])
  }

  predicate Outside(reps: seq<Replacement>, p: int) {
    forall i :: 0 <= i < |reps| ==> p < reps[i].start || reps[i].end <= p
  }

  predicate LandsAt(out: Bytes, at: int, text: Bytes) {
    0 <= at && at + |text| <= |out| && out[at..at + |text|] == text
  }

  predicate Keeps(out: Bytes, at: int, b: Byte) {
    0 <= at < |out| && out[at] == b
  }

  /** Every byte outside the ranges, and every replacement, stands where what was replaced before it has moved it. */
  ghost predicate IsSplice(body: Bytes, reps: seq<Replacement>, out: Bytes) {
    && |out| == |body| + TotalGrowth(reps)
    && (forall p :: 0 <= p < |body| && Outside(reps, p) ==> Keeps(out, p + Shift(reps, p), body[p]))
    && (forall i :: 0 <= i < |reps| ==> LandsAt(out, reps[i].start + Shift(reps, reps[i].start), reps[i].text))
  }

  // ----- Sorted and separate: one arrangement -----

  lemma MembersAgree(a: seq<Replacement>, b: seq<Replacement>)
    requires multiset(a) == multiset(b)
    ensures |a| == |b| && forall x :: x in a <==> x in b
  {
    assert |multiset(a)| == |a| && |multiset(b)| == |b|;
    forall x ensures x in a <==> x in b {
      assert x in a <==> x in multiset(a);
      assert x in b <==> x in multiset(b);
    }
  }

  lemma TwiceThere(s: seq<Replacement>, i: nat, j: nat)
    requires i < j < |s| && s[i] == s[j]
    ensures multiset(s)[s[i]] >= 2
  {
    assert s == s[..i] + [s[i]] + s[i + 1..j] + [s[j]] + s[j + 1..];
  }

  lemma OnceMore(s: seq<Replacement>, a: nat)
    requires a < |s| && multiset(s)[s[a]] >= 2
    ensures exists c :: 0 <= c < |s| && c != a && s[c] == s[a]
  {
    var rest := s[..a] + s[a + 1..];
    assert s == s[..a] + [s[a]] + s[a + 1..];
    assert multiset(s) == multiset(rest) + multiset{s[a]};
    assert s[a] in rest;
    var k :| 0 <= k < |rest| && rest[k] == s[a];
    assert rest[k] == s[if k < a then k else k + 1];
  }

  /** Being separate does not depend on the order. */
  lemma SeparateInAnyOrder(body: Bytes, reps: seq<Replacement>, other: seq<Replacement>)
    requires Separate(body, reps) && multiset(other) == multiset(reps)
    ensures Separate(body, other)
  {
    MembersAgree(other, reps);
    forall i | 0 <= i < |other|
      ensures 0 <= other[i].start < other[i].end <= |body|
    {
      assert other[i] in reps;
    }
    forall i, j | 0 <= i < j < |other|
      ensures other[i].end <= other[j].start || other[j].end <= other[i].start
    {
      assert other[i] in reps && other[j] in reps;
      var a :| 0 <= a < |reps| && reps[a] == other[i];
      if other[i] == other[j] {
        TwiceThere(other, i, j);
        OnceMore(reps, a);
      } else {
        var b :| 0 <= b < |reps| && reps[b] == other[j];
      }
    }
  }

  lemma WithoutOne(s: seq<Replacement>, k: nat)
    requires k < |s|
    ensures multiset(s) == multiset(s[..k] + s[k + 1..]) + multiset{s[k]}
  {
    assert s == s[..k] + [s[k]] + s[k + 1..];
  }

  lemma WithoutFirst(s: seq<Replacement>)
    requires s != []
    ensures multiset(s) == multiset(s[1..]) + multiset{s[0]}
  {
    assert s == [s[0]] + s[1..];
  }

  lemma Cancels(m: multiset<Replacement>, n: multiset<Replacement>, x: Replacement)
    requires m + multiset{x} == n + multiset{x}
    ensures m == n
  {
    assert m == (m + multiset{x}) - multiset{x} && n == (n + multiset{x}) - multiset{x};
  }

  lemma SameFirst(body: Bytes, a: seq<Replacement>, b: seq<Replacement>)
    requires Separate(body, a) && ByStart(a) && ByStart(b) && multiset(a) == multiset(b) && a != [] && b != []
    ensures a[0] == b[0]
  {
    MembersAgree(a, b);
    assert a[0] in b && b[0] in a;
    var i :| 0 <= i < |b| && b[i] == a[0];
    var j :| 0 <= j < |a| && a[j] == b[0];
    assert a[j].start <= a[0].start <= a[j].start;
  }

  lemma RestIsSorted(body: Bytes, a: seq<Replacement>)
    requires Separate(body, a) && ByStart(a) && a != []
    ensures Separate(body, a[1..]) && ByStart(a[1..])
  {
  }

  lemma SameRest(a: seq<Replacement>, b: seq<Replacement>, k: nat)
    requires multiset(a) == multiset(b) && a != [] && k < |b| && a[0] == b[k]
    ensures multiset(a[1..]) == multiset(b[..k] + b[k + 1..])
  {
    WithoutFirst(a);
    WithoutOne(b, k);
    Cancels(multiset(a[1..]), multiset(b[..k] + b[k + 1..]), a[0]);
  }

  lemma SameRestAtFirst(a: seq<Replacement>, b: seq<Replacement>)
    requires multiset(a) == multiset(b) && a != [] && b != [] && a[0] == b[0]
    ensures multiset(a[1..]) == multiset(b[1..])
  {
    WithoutFirst(a);
    WithoutFirst(b);
    Cancels(multiset(a[1..]), multiset(b[1..]), a[0]);
  }

  lemma {:induction false} SortedIsUnique(body: Bytes, a: seq<Replacement>, b: seq<Replacement>)
    requires Separate(body, a) && ByStart(a) && ByStart(b) && multiset(a) == multiset(b)
    ensures a == b
  {
    MembersAgree(a, b);
    if a != [] {
      hide Separate, ByStart;
      SameFirst(body, a, b);
      SeparateInAnyOrder(body, a, b);
      SameRestAtFirst(a, b);
      RestIsSorted(body, a);
      RestIsSorted(body, b);
      SortedIsUnique(body, a[1..], b[1..]);
      assert a == [a[0]] + a[1..] && b == [b[0]] + b[1..];
    }
  }

  lemma ArrangementIsUnique(body: Bytes, a: seq<Replacement>, b: seq<Replacement>, reps: seq<Replacement>)
    requires Separate(body, reps) && IsArrangement(a, reps) && IsArrangement(b, reps)
    ensures a == b
  {
    SeparateInAnyOrder(body, reps, a);
    SortedIsUnique(body, a, b);
  }

  // ----- The sorted splice, byte by byte -----

  /** Sorted and separate, from `cursor` on. */
  predicate From(body: Bytes, cursor: nat, sorted: seq<Replacement>) {
    && cursor <= |body| && Separate(body, sorted) && ByStart(sorted)
    && forall i :: 0 <= i < |sorted| ==> cursor <= sorted[i].start
  }

  lemma TailFrom(body: Bytes, cursor: nat, sorted: seq<Replacement>)
    requires From(body, cursor, sorted) && sorted != []
    ensures From(body, sorted[0].end, sorted[1..])
    ensures Spliced(body, cursor, sorted) == body[cursor..sorted[0].start] + sorted[0].text + Spliced(body, sorted[0].end, sorted[1..])
  {
    forall i | 0 <= i < |sorted[1..]| ensures sorted[0].end <= sorted[1..][i].start {
      assert sorted[1..][i] == sorted[i + 1];
    }
  }

  lemma {:induction false} SplicedLength(body: Bytes, cursor: nat, sorted: seq<Replacement>)
    requires From(body, cursor, sorted)
    ensures |Spliced(body, cursor, sorted)| == |body| - cursor + TotalGrowth(sorted)
    decreases |sorted|
  {
    if sorted != [] {
      hide Separate, ByStart;
      TailFrom(body, cursor, sorted);
      SplicedLength(body, sorted[0].end, sorted[1..]);
    }
  }

  lemma {:induction false} NoShiftBefore(reps: seq<Replacement>, p: int)
    requires forall i :: 0 <= i < |reps| ==> p < reps[i].end
    ensures Shift(reps, p) == 0
  {
    if reps != [] {
      NoShiftBefore(reps[1..], p);
    }
  }

  lemma {:induction false} SplicedKeeps(body: Bytes, cursor: nat, sorted: seq<Replacement>, p: nat)
    requires From(body, cursor, sorted) && cursor <= p < |body| && Outside(sorted, p)
    ensures Keeps(Spliced(body, cursor, sorted), p - cursor + Shift(sorted, p), body[p])
    decreases |sorted|
  {
    if sorted == [] {
    } else if p < sorted[0].start {
      NoShiftBefore(sorted, p);
      TailFrom(body, cursor, sorted);
    } else {
      TailFrom(body, cursor, sorted);
      forall i | 0 <= i < |sorted[1..]| ensures p < sorted[1..][i].start || sorted[1..][i].end <= p {
        assert sorted[1..][i] == sorted[i + 1];
      }
      SplicedKeeps(body, sorted[0].end, sorted[1..], p);
      InTheRest(body[cursor..sorted[0].start], sorted[0].text, Spliced(body, sorted[0].end, sorted[1..]),
                p - sorted[0].end + Shift(sorted[1..], p), body[p]);
    }
  }

  lemma InTheRest(a: Bytes, b: Bytes, rest: Bytes, at: int, x: Byte)
    requires Keeps(rest, at, x)
    ensures Keeps(a + b + rest, |a| + |b| + at, x)
  {
  }

  lemma FirstLands(a: Bytes, b: Bytes, rest: Bytes)
    ensures LandsAt(a + b + rest, |a|, b)
  {
    assert (a + b + rest)[|a|..|a| + |b|] == b;
  }

  lemma LandsInTheRest(a: Bytes, b: Bytes, rest: Bytes, at: int, text: Bytes)
    requires LandsAt(rest, at, text)
    ensures LandsAt(a + b + rest, |a| + |b| + at, text)
  {
    assert (a + b + rest)[|a| + |b| + at..|a| + |b| + at + |text|] == rest[at..at + |text|];
  }

  lemma {:induction false} SplicedLands(body: Bytes, cursor: nat, sorted: seq<Replacement>, i: nat)
    requires From(body, cursor, sorted) && i < |sorted|
    ensures LandsAt(Spliced(body, cursor, sorted), sorted[i].start - cursor + Shift(sorted, sorted[i].start), sorted[i].text)
    decreases |sorted|
  {
    hide LandsAt;
    TailFrom(body, cursor, sorted);
    var rest := Spliced(body, sorted[0].end, sorted[1..]);
    if i == 0 {
      NoShiftBefore(sorted, sorted[0].start);
      FirstLands(body[cursor..sorted[0].start], sorted[0].text, rest);
    } else {
      assert sorted[1..][i - 1] == sorted[i];
      SplicedLands(body, sorted[0].end, sorted[1..], i - 1);
      LandsInTheRest(body[cursor..sorted[0].start], sorted[0].text, rest,
                     sorted[i].start - sorted[0].end + Shift(sorted[1..], sorted[i].start), sorted[i].text);
    }
  }

  // ----- From the arrangement to the replacements as passed -----

  lemma {:induction false} ShiftOfConcat(a: seq<Replacement>, b: seq<Replacement>, p: int)
    ensures Shift(a + b, p) == Shift(a, p) + Shift(b, p) && TotalGrowth(a + b) == TotalGrowth(a) + TotalGrowth(b)
  {
    if a == [] {
      assert a + b == b;
    } else {
      assert (a + b)[1..] == a[1..] + b;
      ShiftOfConcat(a[1..], b, p);
    }
  }

  lemma ShiftWithoutOne(s: seq<Replacement>, k: nat, p: int)
    requires k < |s|
    ensures Shift(s, p) == Shift(s[..k] + s[k + 1..], p) + (if s[k].end <= p then Growth(s[k]) else 0)
    ensures TotalGrowth(s) == TotalGrowth(s[..k] + s[k + 1..]) + Growth(s[k])
  {
    assert s == s[..k] + s[k..];
    ShiftOfConcat(s[..k], s[k..], p);
    ShiftOfConcat(s[..k], s[k + 1..], p);
  }

  lemma {:induction false} ShiftInAnyOrder(a: seq<Replacement>, b: seq<Replacement>, p: int)
    requires multiset(a) == multiset(b)
    ensures Shift(a, p) == Shift(b, p) && TotalGrowth(a) == TotalGrowth(b)
  {
    MembersAgree(a, b);
    if a != [] {
      hide Growth;
      assert a[0] in b;
      var k :| 0 <= k < |b| && b[k] == a[0];
      SameRest(a, b, k);
      ShiftInAnyOrder(a[1..], b[..k] + b[k + 1..], p);
      ShiftWithoutOne(b, k, p);
    }
  }

  lemma SpliceIsPointwise(body: Bytes, sorted: seq<Replacement>, reps: seq<Replacement>)
    requires Separate(body, reps) && IsArrangement(sorted, reps)
    ensures IsSplice(body, reps, Spliced(body, 0, sorted))
  {
    hide Spliced, Shift, TotalGrowth, Keeps, LandsAt;
    var out := Spliced(body, 0, sorted);
    SeparateInAnyOrder(body, reps, sorted);
    MembersAgree(sorted, reps);
    assert From(body, 0, sorted);
    SplicedLength(body, 0, sorted);
    ShiftInAnyOrder(sorted, reps, 0);
    forall p | 0 <= p < |body| && Outside(reps, p)
      ensures Keeps(out, p + Shift(reps, p), body[p])
    {
      forall i | 0 <= i < |sorted| ensures p < sorted[i].start || sorted[i].end <= p {
        assert sorted[i] in reps;
      }
      SplicedKeeps(body, 0, sorted, p);
      ShiftInAnyOrder(sorted, reps, p);
    }
    forall i | 0 <= i < |reps|
      ensures LandsAt(out, reps[i].start + Shift(reps, reps[i].start), reps[i].text)
    {
      assert reps[i] in sorted;
      var k :| 0 <= k < |sorted| && sorted[k] == reps[i];
      SplicedLands(body, 0, sorted, k);
      ShiftInAnyOrder(sorted, reps, reps[i].start);
    }
  }

  // ----- Bad ranges -----

  /** The replacements a splice does not pass over. */
  function Taken(body: Bytes, cursor: nat, sorted: seq<Replacement>): seq<Replacement>
    requires cursor <= |body|
    decreases |sorted|
  {
    if sorted == [] then []
    else if Unusable(sorted[0], cursor, |body|) then Taken(body, cursor, sorted[1..])
    else [sorted[0]] + Taken(body, sorted[0].end, sorted[1..])
  }

  /** Ranges, in this order, that do not run out of the body or into each other. */
  predicate InTurn(cursor: nat, taken: seq<Replacement>, size: nat)
    decreases |taken|
  {
    taken == [] || (cursor <= taken[0].start <= taken[0].end <= size && InTurn(taken[0].end, taken[1..], size))
  }

  /**
   Whatever ranges are passed, the splice is the splice of those it takes, none of
   which overlaps another or leaves the body: a bad range costs only itself.
   */
  lemma {:induction false} BadRangesLeaveNoTrace(body: Bytes, cursor: nat, sorted: seq<Replacement>)
    requires cursor <= |body|
    ensures (var taken := Taken(body, cursor, sorted);
             InTurn(cursor, taken, |body|) && Spliced(body, cursor, taken) == Spliced(body, cursor, sorted))
    decreases |sorted|
  {
    if sorted != [] {
      if Unusable(sorted[0], cursor, |body|) {
        BadRangesLeaveNoTrace(body, cursor, sorted[1..]);
      } else {
        var rest := Taken(body, sorted[0].end, sorted[1..]);
        BadRangesLeaveNoTrace(body, sorted[0].end, sorted[1..]);
        assert ([sorted[0]] + rest)[1..] == rest;
      }
    }
  }
}
