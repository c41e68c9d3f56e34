/**
 Filling a gap late, on the session's turns alone: what a session comes to whose
 turn `g` was replayed after all the others, and exactly when that is what the
 whole-session pass computes.
 */
module Gaps {
  import opened Wrappers
  import opened Json
  import opened Classify
  import opened Replay

  /** The session as the other requests' writes see it: `g` brings nothing of its own. */
  function Quiet(ts: seq<Turn>, g: nat): (q: seq<Turn>)
    requires g < |ts|
    ensures |q| == |ts|
  {
    ts[g := Turn(ts[g].input, Contribution([], ts[g].brings.copies, None))]
  }

  lemma {:induction false} TimelineGrows(ts: seq<Turn>, m: nat, n: nat)
    requires m <= n <= |ts|
    ensures Timeline(ts, m) <= Timeline(ts, n)
    decreases n
  {
    hide Changes;
    if m < n {
      TimelineGrows(ts, m, n - 1);
    }
  }

  function EntryFor(turn: Turn): SystemEntry
    requires turn.brings.system.Some?
  {
    SystemEntry(turn.input.requestID, turn.input.bodyTruncated, turn.brings.system.value)
  }

  /** The timeline with the gap filled: `g`'s entry at its place, if its value differs from the session's last. */
  function FilledTimeline(ts: seq<Turn>, g: nat): seq<SystemEntry>
    requires g < |ts|
  {
    var early, all := Timeline(Quiet(ts, g), g), Timeline(Quiet(ts, g), |ts|);
    TimelineGrows(Quiet(ts, g), g, |ts|);
    early + (if Changes(all, ts[g].brings.system) then [EntryFor(ts[g])] else []) + all[|early|..]
  }

  /** The added elements of turn `i` with the gap filled: `g` folds against the whole rest of the session. */
  function FilledAdded(ts: seq<Turn>, g: nat, i: nat): seq<Json>
    requires g < |ts| && i < |ts|
  {
    Kept(FoldAt(Quiet(ts, g), if i == g then |ts| else i), ts[i].brings.elements)
  }

  // ----- System values -----

  /** The last system value turns `lo` to `hi` bring. */
  function LastValue(ts: seq<Turn>, lo: nat, hi: nat): Option<Json>
    requires hi <= |ts|
    decreases hi
  {
    if hi <= lo then None
    else if ts[hi - 1].brings.system.Some? then ts[hi - 1].brings.system
    else LastValue(ts, lo, hi - 1)
  }

  /** The first system value turns `lo` to `hi` bring. */
  function FirstValue(ts: seq<Turn>, lo: nat, hi: nat): Option<Json>
    requires hi <= |ts|
    decreases hi
  {
    if hi <= lo then None
    else if FirstValue(ts, lo, hi - 1).Some? then FirstValue(ts, lo, hi - 1)
    else ts[hi - 1].brings.system
  }

  /**
   The system values allow `g` to be filled late: it brings none, or nothing later
   does; or its value was in effect before it and is the session's last; or it
   brought a new value that neither the next value nor the last one repeats, and
   the next one does not go back to the value before.
   */
  predicate SystemAllows(ts: seq<Turn>, g: nat)
    requires g < |ts|
  {
    var v, before := ts[g].brings.system, LastValue(ts, 0, g);
    var next, end := FirstValue(ts, g + 1, |ts|), LastValue(ts, g + 1, |ts|);
    || v.None? || next.None?
    || if v == before then end == v else next != v && next != before && end != v
  }

  function ValueOf(t: seq<SystemEntry>): Option<Json> {
    if t == [] then None else Some(t[|t| - 1].raw)
  }

  function Or(a: Option<Json>, b: Option<Json>): Option<Json> {
    if a.Some? then a else b
  }

  /** The value in effect is the last one brought. */
  lemma {:induction false} EffectIsTheLastValue(ts: seq<Turn>, m: nat, n: nat)
    requires m <= n <= |ts|
    ensures ValueOf(Timeline(ts, n)) == Or(LastValue(ts, m, n), ValueOf(Timeline(ts, m)))
    decreases n
  {
    if m < n {
      EffectIsTheLastValue(ts, m, n - 1);
    }
  }

  lemma {:induction false} FirstAndLast(ts: seq<Turn>, lo: nat, hi: nat)
    requires hi <= |ts|
    ensures FirstValue(ts, lo, hi).Some? <==> LastValue(ts, lo, hi).Some?
    decreases hi
  {
    if lo < hi {
      FirstAndLast(ts, lo, hi - 1);
    }
  }

  /** Two sessions that differ in turn `g` alone. */
  predicate DifferAt(ts: seq<Turn>, q: seq<Turn>, g: nat) {
    g < |ts| == |q| && forall i :: 0 <= i < |ts| && i != g ==> q[i] == ts[i]
  }

  lemma {:induction false} SameBefore(ts: seq<Turn>, q: seq<Turn>, g: nat, n: nat)
    requires DifferAt(ts, q, g) && n <= g
    ensures Timeline(q, n) == Timeline(ts, n) && FoldAt(q, n) == FoldAt(ts, n)
  {
    if n > 0 {
      SameBefore(ts, q, g, n - 1);
    }
  }

  lemma {:induction false} SameValues(ts: seq<Turn>, q: seq<Turn>, g: nat, lo: nat, hi: nat)
    requires DifferAt(ts, q, g) && hi <= |ts| && (g < lo || hi <= g)
    ensures FirstValue(q, lo, hi) == FirstValue(ts, lo, hi) && LastValue(q, lo, hi) == LastValue(ts, lo, hi)
    decreases hi
  {
    if lo < hi {
      SameValues(ts, q, g, lo, hi - 1);
    }
  }

  /** What the turns after `m` record. */
  function Since(ts: seq<Turn>, m: nat, n: nat): seq<SystemEntry>
    requires m <= n <= |ts|
  {
    TimelineGrows(ts, m, n);
    Timeline(ts, n)[|Timeline(ts, m)|..]
  }

  lemma SinceOneMore(ts: seq<Turn>, m: nat, n: nat)
    requires m <= n < |ts|
    ensures Since(ts, m, n + 1)
         == Since(ts, m, n) + if Changes(Timeline(ts, n), ts[n].brings.system) then [EntryFor(ts[n])] else []
    ensures Timeline(ts, n) == Timeline(ts, m) + Since(ts, m, n)
  {
    TimelineGrows(ts, m, n);
  }

  /** Whether the first value after `m` is recorded. */
  predicate FirstIsNews(ts: seq<Turn>, m: nat, n: nat)
    requires m <= n <= |ts|
  {
    FirstValue(ts, m, n).Some? && FirstValue(ts, m, n) != ValueOf(Timeline(ts, m))
  }

  /**
   From turn `g + 1` on, two sessions that differ at `g` record the same, but for
   the first value they bring, which may be news to one and not to the other.
   */
  lemma {:induction false} TailsAgree(ts: seq<Turn>, q: seq<Turn>, g: nat, n: nat)
    requires DifferAt(ts, q, g) && g < n <= |ts|
    ensures FirstValue(ts, g + 1, n).None? ==> Since(q, g + 1, n) == Since(ts, g + 1, n) == []
    ensures FirstValue(ts, g + 1, n).Some? ==> ValueOf(Timeline(q, n)) == ValueOf(Timeline(ts, n))
    ensures |Since(q, g + 1, n)| + (if FirstIsNews(ts, g + 1, n) then 1 else 0)
         == |Since(ts, g + 1, n)| + (if FirstIsNews(q, g + 1, n) then 1 else 0)
    ensures FirstIsNews(q, g + 1, n) == FirstIsNews(ts, g + 1, n) ==> Since(q, g + 1, n) == Since(ts, g + 1, n)
    decreases n
  {
    hide Timeline, Since;
    SameValues(ts, q, g, g + 1, n);
    if n == g + 1 {
      assert Since(q, n, n) == Since(ts, n, n) == [] by { NothingSince(q, n); NothingSince(ts, n); }
    } else {
      var k := n - 1;
      TailsAgree(ts, q, g, k);
      SameValues(ts, q, g, g + 1, k);
      SinceOneMore(ts, g + 1, k);
      SinceOneMore(q, g + 1, k);
      EffectIsTheLastValue(ts, g + 1, n);
      EffectIsTheLastValue(q, g + 1, n);
      EffectIsTheLastValue(ts, g + 1, k);
      EffectIsTheLastValue(q, g + 1, k);
      SameValues(ts, q, g, g + 1, n);
      FirstAndLast(ts, g + 1, n);
      FirstAndLast(ts, g + 1, k);
      NewsIs(Timeline(ts, k), ts[k].brings.system);
      NewsIs(Timeline(q, k), ts[k].brings.system);
    }
  }

  lemma NothingSince(ts: seq<Turn>, n: nat)
    requires n <= |ts|
    ensures Since(ts, n, n) == []
  {
  }

  lemma NewsIs(t: seq<SystemEntry>, v: Option<Json>)
    ensures Changes(t, v) <==> v.Some? && v != ValueOf(t)
  {
  }

  predicate DistinctTurns(ts: seq<Turn>) {
    forall i, j :: 0 <= i < j < |ts| ==> ts[i].input.requestID != ts[j].input.requestID
  }

  lemma {:induction false} SinceNamesLater(ts: seq<Turn>, m: nat, n: nat)
    requires m <= n <= |ts|
    ensures forall e :: e in Since(ts, m, n) ==> exists i :: m <= i < n && e.seenAt == ts[i].input.requestID
    decreases n
  {
    hide Since, Timeline;
    if n == m {
      NothingSince(ts, n);
    } else {
      SinceNamesLater(ts, m, n - 1);
      SinceOneMore(ts, m, n - 1);
    }
  }

  /** The two timelines, entry by entry. */
  lemma TimelinesInParts(ts: seq<Turn>, g: nat)
    requires g < |ts|
    ensures (var q, v := Quiet(ts, g), ts[g].brings.system;
             var early := Timeline(ts, g);
             && Timeline(q, g) == Timeline(q, g + 1) == early
             && FilledTimeline(ts, g)
                == early + (if Changes(Timeline(q, |ts|), v) then [EntryFor(ts[g])] else []) + Since(q, g + 1, |ts|)
             && Timeline(ts, |ts|)
                == early + (if Changes(early, v) then [EntryFor(ts[g])] else []) + Since(ts, g + 1, |ts|)
             && ValueOf(Timeline(ts, g + 1)) == Or(v, ValueOf(early)))
  {
    hide Timeline, Quiet, Changes, Since;
    var q := Quiet(ts, g);
    QuietDiffers(ts, g);
    SameBefore(ts, q, g, g);
    OneMoreTurn(ts, g);
    OneMoreTurn(q, g);
    TimelineGrows(q, g, |ts|);
    SinceAll(ts, g + 1);
    SinceAll(q, g + 1);
    NewsIs(Timeline(ts, g), ts[g].brings.system);
    QuietIsNoNews(ts, g, Timeline(q, g));
  }

  lemma OneMoreTurn(ts: seq<Turn>, g: nat)
    requires g < |ts|
    ensures Timeline(ts, g + 1)
         == Timeline(ts, g) + if Changes(Timeline(ts, g), ts[g].brings.system) then [EntryFor(ts[g])] else []
  {
  }

  lemma SinceAll(ts: seq<Turn>, m: nat)
    requires m <= |ts|
    ensures Timeline(ts, |ts|) == Timeline(ts, m) + Since(ts, m, |ts|)
  {
    TimelineGrows(ts, m, |ts|);
  }

  lemma QuietIsNoNews(ts: seq<Turn>, g: nat, t: seq<SystemEntry>)
    requires g < |ts|
    ensures !Changes(t, Quiet(ts, g)[g].brings.system)
  {
  }

  /** The values in effect around the gap, by what the turns bring. */
  lemma ValuesAround(ts: seq<Turn>, g: nat)
    requires g < |ts|
    ensures (var q, n := Quiet(ts, g), |ts|;
             var before, next, end := LastValue(ts, 0, g), FirstValue(ts, g + 1, n), LastValue(ts, g + 1, n);
             && ValueOf(Timeline(ts, g)) == before && ValueOf(Timeline(q, n)) == Or(end, before)
             && FirstValue(q, g + 1, n) == next && (next.Some? <==> end.Some?))
  {
    hide Timeline, Quiet, FirstValue, LastValue;
    var q, n := Quiet(ts, g), |ts|;
    QuietDiffers(ts, g);
    TimelinesInParts(ts, g);
    SameValues(ts, q, g, g + 1, n);
    EffectIsTheLastValue(ts, 0, g);
    NothingYet(ts);
    EffectIsTheLastValue(q, g + 1, n);
    FirstAndLast(ts, g + 1, n);
  }

  lemma TimelineFilledExactlyWhen(ts: seq<Turn>, g: nat)
    requires g < |ts| && DistinctTurns(ts)
    ensures FilledTimeline(ts, g) == Timeline(ts, |ts|) <==> SystemAllows(ts, g)
  {
    hide Timeline, Since, Quiet, FilledTimeline, FirstValue, LastValue, Changes, DistinctTurns, DifferAt;
    var q, v, n := Quiet(ts, g), ts[g].brings.system, |ts|;
    var early := Timeline(ts, g);
    QuietDiffers(ts, g);
    TimelinesInParts(ts, g);
    TailsAgree(ts, q, g, n);
    ValuesAround(ts, g);
    NewsIs(early, v);
    NewsIs(Timeline(q, n), v);
    var x, y := if Changes(early, v) then [EntryFor(ts[g])] else [], if Changes(Timeline(q, n), v) then [EntryFor(ts[g])] else [];
    PartsDiffer(ts, q, g, early, x, y);
  }

  lemma QuietDiffers(ts: seq<Turn>, g: nat)
    requires g < |ts|
    ensures DifferAt(ts, Quiet(ts, g), g) && Quiet(ts, g)[g].input == ts[g].input
  {
  }

  lemma NothingYet(ts: seq<Turn>)
    ensures ValueOf(Timeline(ts, 0)) == None
  {
  }

  /** Past the gap the lists hold entries of later requests only, so they agree part by part or not at all. */
  lemma PartsDiffer(ts: seq<Turn>, q: seq<Turn>, g: nat, early: seq<SystemEntry>, x: seq<SystemEntry>, y: seq<SystemEntry>)
    requires DifferAt(ts, q, g) && DistinctTurns(ts) && q[g].input == ts[g].input
    requires |x| <= 1 && |y| <= 1 && forall e :: e in x + y ==> e.seenAt == ts[g].input.requestID
    requires |x| == |y| ==> x == y
    ensures early + y + Since(q, g + 1, |ts|) == early + x + Since(ts, g + 1, |ts|)
       <==> x == y && Since(q, g + 1, |ts|) == Since(ts, g + 1, |ts|)
  {
    hide Since;
    var b, c := Since(q, g + 1, |ts|), Since(ts, g + 1, |ts|);
    SinceNamesLater(q, g + 1, |ts|);
    SinceNamesLater(ts, g + 1, |ts|);
    if |y| > |x| {
      assert y == [y[0]] && y[0] in x + y && early + x + c == early + c;
      LoneEntryShows(early, y[0], b, c);
    } else if |x| > |y| {
      assert x == [x[0]] && x[0] in x + y && early + y + b == early + b;
      LoneEntryShows(early, x[0], c, b);
    } else {
      assert (early + y + b)[|early + y|..] == b && (early + x + c)[|early + x|..] == c;
    }
  }

  lemma LoneEntryShows(early: seq<SystemEntry>, e: SystemEntry, b: seq<SystemEntry>, c: seq<SystemEntry>)
    requires forall z :: z in c ==> z.seenAt != e.seenAt
    ensures early + [e] + b != early + c
  {
    assert (early + [e] + b)[|early|] == e;
    if c != [] {
      assert c[0] in c && (early + c)[|early|] == c[0];
    }
  }

  // ----- Inputs -----

  /** The first user input among the elements. */
  function FirstInput(els: seq<Json>): Option<Json> {
    if els == [] then None
    else if FirstInput(els[..|els| - 1]).Some? then FirstInput(els[..|els| - 1])
    else if Class(els[|els| - 1]) == UserInput then Some(els[|els| - 1])
    else None
  }

  /** The last user input among the elements. */
  function LastInput(els: seq<Json>): Option<Json> {
    if els == [] then None
    else if Class(els[|els| - 1]) == UserInput then Some(els[|els| - 1])
    else LastInput(els[..|els| - 1])
  }

  /** The first user input turns `lo` to `hi` bring. */
  function FirstInputOf(ts: seq<Turn>, lo: nat, hi: nat): Option<Json>
    requires hi <= |ts|
    decreases hi
  {
    if hi <= lo then None
    else if FirstInputOf(ts, lo, hi - 1).Some? then FirstInputOf(ts, lo, hi - 1)
    else FirstInput(ts[hi - 1].brings.elements)
  }

  /** The last user input turns `lo` to `hi` bring. */
  function LastInputOf(ts: seq<Turn>, lo: nat, hi: nat): Option<Json>
    requires hi <= |ts|
    decreases hi
  {
    if hi <= lo then None
    else if LastInput(ts[hi - 1].brings.elements).Some? then LastInput(ts[hi - 1].brings.elements)
    else LastInputOf(ts, lo, hi - 1)
  }

  /** The words `el` repeats are those of `heard`, the last input before it. */
  predicate Repeats(heard: Option<Json>, el: Json) {
    heard.Some? && RealText(el) != "" && RealText(el) == RealText(heard.value)
  }

  /**
   The inputs allow `g` to be filled late: its first input repeats the last one of
   the later requests just if it repeats the last one before it, and the first
   input after it repeats its own last one just if it repeats the one before it.
   */
  predicate InputsAllow(ts: seq<Turn>, g: nat)
    requires g < |ts|
  {
    var els, before := ts[g].brings.elements, LastInputOf(ts, 0, g);
    var first, next := FirstInput(els), FirstInputOf(ts, g + 1, |ts|);
    && (first.Some? ==>
          (Repeats(Or(LastInputOf(ts, g + 1, |ts|), before), first.value) <==> Repeats(before, first.value)))
    && (next.Some? ==> (Repeats(Or(LastInput(els), before), next.value) <==> Repeats(before, next.value)))
  }

  /** The fold's state once `heard` is the last input heard. */
  function Heard(f: FoldState, heard: Option<Json>): FoldState {
    if heard.Some? then FoldState(RealText(heard.value), true) else f
  }

  /** Kept or not, an input leaves its own words in the fold. */
  lemma {:induction false} FoldHoldsTheLastInput(f: FoldState, els: seq<Json>)
    ensures After(f, els) == Heard(f, LastInput(els))
  {
    hide Class, RealText;
    if els != [] {
      FoldHoldsTheLastInput(f, els[..|els| - 1]);
    }
  }

  lemma {:induction false} FoldHoldsTheLastInputOf(ts: seq<Turn>, m: nat, n: nat)
    requires m <= n <= |ts|
    ensures FoldAt(ts, n) == Heard(FoldAt(ts, m), LastInputOf(ts, m, n))
    decreases n
  {
    hide LastInput, RealText, After;
    if m < n {
      FoldHoldsTheLastInputOf(ts, m, n - 1);
      FoldHoldsTheLastInput(FoldAt(ts, n - 1), ts[n - 1].brings.elements);
    }
  }

  /** Two states keep the same elements exactly when they agree on the first input. */
  lemma {:induction false} KeptAgree(f: FoldState, h: FoldState, els: seq<Json>)
    ensures (var u := FirstInput(els);
             Kept(f, els) == Kept(h, els) <==> (u.Some? ==> Keeps(f, u.value) == Keeps(h, u.value)))
    ensures FirstInput(els).None? ==> LastInput(els).None?
    ensures FirstInput(els).Some? ==> Class(FirstInput(els).value) == UserInput && LastInput(els).Some?
  {
    hide Class, RealText, Keeps;
    if els != [] {
      var init, last := els[..|els| - 1], els[|els| - 1];
      KeptAgree(f, h, init);
      FoldHoldsTheLastInput(f, init);
      FoldHoldsTheLastInput(h, init);
      if FirstInput(init).None? {
        OthersAreKept(f, last);
        OthersAreKept(h, last);
      } else {
        SameTail(Kept(f, init), Kept(h, init), if Keeps(After(f, init), last) then [last] else []);
      }
    }
  }

  lemma SameTail(a: seq<Json>, b: seq<Json>, tail: seq<Json>)
    ensures a + tail == b + tail <==> a == b
  {
    if a + tail == b + tail {
      assert (a + tail)[..|a|] == a && (b + tail)[..|b|] == b;
    }
  }

  lemma OthersAreKept(f: FoldState, el: Json)
    ensures Class(el) != UserInput ==> Keeps(f, el)
  {
    hide Class, RealText;
  }

  lemma {:induction false} SameInputs(ts: seq<Turn>, q: seq<Turn>, g: nat, lo: nat, hi: nat)
    requires DifferAt(ts, q, g) && hi <= |ts| && (g < lo || hi <= g)
    ensures FirstInputOf(q, lo, hi) == FirstInputOf(ts, lo, hi) && LastInputOf(q, lo, hi) == LastInputOf(ts, lo, hi)
    decreases hi
  {
    hide FirstInput, LastInput;
    if lo < hi {
      SameInputs(ts, q, g, lo, hi - 1);
    }
  }

  /** Whether the words are dropped depends on the last input heard. */
  lemma KeepsUnlessRepeated(heard: Option<Json>, el: Json)
    requires Class(el) == UserInput
    ensures Keeps(Heard(FRESH, heard), el) <==> !Repeats(heard, el)
  {
    hide Class, RealText;
  }

  lemma HeardTwice(a: Option<Json>, b: Option<Json>)
    ensures Heard(Heard(FRESH, a), b) == Heard(FRESH, Or(b, a))
  {
  }

  /** After the gap the two sessions keep the same up to turn `n` exactly when they agree on the first input. */
  lemma {:induction false} LaterKeptAgree(ts: seq<Turn>, q: seq<Turn>, g: nat, n: nat)
    requires DifferAt(ts, q, g) && g < n <= |ts|
    ensures (var u := FirstInputOf(ts, g + 1, n);
             && (u.Some? ==> LastInputOf(ts, g + 1, n).Some? && Class(u.value) == UserInput)
             && (u.None? ==> LastInputOf(ts, g + 1, n).None?)
             && ((forall i :: g < i < n ==> AddedAt(q, i) == AddedAt(ts, i))
                 <==> (u.Some? ==> Keeps(FoldAt(q, g + 1), u.value) == Keeps(FoldAt(ts, g + 1), u.value))))
    decreases n
  {
    hide FoldAt, Kept, FirstInput, LastInput, Keeps, Class, AddedAt;
    if n > g + 1 {
      var k := n - 1;
      LaterKeptAgree(ts, q, g, k);
      FoldHoldsTheLastInputOf(ts, g + 1, k);
      FoldHoldsTheLastInputOf(q, g + 1, k);
      SameInputs(ts, q, g, g + 1, k);
      KeptAgree(FoldAt(q, k), FoldAt(ts, k), ts[k].brings.elements);
      AddedIs(ts, k);
      AddedIs(q, k);
    }
  }

  lemma AddedIs(ts: seq<Turn>, k: nat)
    requires k < |ts|
    ensures AddedAt(ts, k) == Kept(FoldAt(ts, k), ts[k].brings.elements)
  {
  }

  lemma AddedFilledExactlyWhen(ts: seq<Turn>, g: nat)
    requires g < |ts|
    ensures (forall i :: 0 <= i < |ts| ==> FilledAdded(ts, g, i) == AddedAt(ts, i)) <==> InputsAllow(ts, g)
  {
    hide FoldAt, Kept, FirstInput, LastInput, Keeps, Class, AddedAt, Quiet, FirstInputOf, LastInputOf, Repeats, Heard, After;
    var q, n, els := Quiet(ts, g), |ts|, ts[g].brings.elements;
    assert DifferAt(ts, q, g) by { QuietDiffers(ts, g); }
    var before, end := LastInputOf(ts, 0, g), LastInputOf(ts, g + 1, n);
    FoldsAround(ts, g);
    KeptAgree(FoldAt(q, n), FoldAt(ts, g), els);
    LaterKeptAgree(ts, q, g, n);
    AddedIs(ts, g);
    HeardTwice(before, end);
    HeardTwice(before, LastInput(els));
    var first, next := FirstInput(els), FirstInputOf(ts, g + 1, n);
    if first.Some? {
      KeepsUnlessRepeated(before, first.value);
      KeepsUnlessRepeated(Or(end, before), first.value);
    }
    if next.Some? {
      KeepsUnlessRepeated(before, next.value);
      KeepsUnlessRepeated(Or(LastInput(els), before), next.value);
    }
    forall i | 0 <= i < n && i != g
      ensures FilledAdded(ts, g, i) == AddedAt(q, i)
      ensures i < g ==> AddedAt(q, i) == AddedAt(ts, i)
    {
      AddedIs(q, i);
      AddedIs(ts, i);
      if i < g {
        SameBefore(ts, q, g, i);
      }
    }
  }

  /** The fold's states before the gap, after it, and at the end of the session without it. */
  lemma FoldsAround(ts: seq<Turn>, g: nat)
    requires g < |ts|
    ensures (var q, before := Quiet(ts, g), LastInputOf(ts, 0, g);
             && FoldAt(ts, g) == FoldAt(q, g + 1) == Heard(FRESH, before)
             && FoldAt(ts, g + 1) == Heard(Heard(FRESH, before), LastInput(ts[g].brings.elements))
             && FoldAt(q, |ts|) == Heard(Heard(FRESH, before), LastInputOf(ts, g + 1, |ts|)))
  {
    hide LastInput, RealText, Next;
    var q := Quiet(ts, g);
    SameBefore(ts, q, g, g);
    FoldHoldsTheLastInputOf(ts, 0, g);
    FoldHoldsTheLastInput(FoldAt(ts, g), ts[g].brings.elements);
    FoldHoldsTheLastInputOf(q, g + 1, |ts|);
    SameInputs(ts, q, g, g + 1, |ts|);
  }
}
