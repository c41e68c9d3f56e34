/**
 Why the outcome of a report depends on what was said and on nothing else: a fold is
 the one value that every reported fact bounds and that reported facts attain.
 */
module DecisionFolds {
  import opened Decision

  // ----- The order between claims is a strict total order -----

  lemma {:induction false} LessIsStrict(a: string, b: string)
    ensures !(Less(a, b) && Less(b, a)) && !Less(a, a)
  {
    if a != [] {
      LessIsStrict(a[1..], if b != [] then b[1..] else []);
    }
  }

  lemma {:induction false} LessIsTransitive(a: string, b: string, c: string)
    requires Less(a, b) && Less(b, c)
    ensures Less(a, c)
  {
    if a != [] && a[0] == b[0] == c[0] {
      LessIsTransitive(a[1..], b[1..], c[1..]);
    }
  }

  lemma {:induction false} LessIsTotal(a: string, b: string)
    ensures Less(a, b) || Less(b, a) || a == b
  {
    if a != [] && b != [] && a[0] == b[0] {
      LessIsTotal(a[1..], b[1..]);
      assert a == [a[0]] + a[1..] && b == [b[0]] + b[1..];
    }
  }

  lemma OutranksIsStrict(x: Verdict, y: Verdict)
    ensures !(Outranks(x, y) && Outranks(y, x))
  {
    hide Less;
    LessIsStrict(x.reason, y.reason);
    LessIsStrict(x.detail, y.detail);
  }

  lemma OutranksIsTransitive(x: Verdict, y: Verdict, z: Verdict)
    requires Outranks(x, y) && Outranks(y, z)
    ensures Outranks(x, z)
  {
    hide Less;
    LessIsStrict(x.reason, y.reason);
    if Less(x.reason, y.reason) && Less(y.reason, z.reason) {
      LessIsTransitive(x.reason, y.reason, z.reason);
    }
    if Less(x.detail, y.detail) && Less(y.detail, z.detail) {
      LessIsTransitive(x.detail, y.detail, z.detail);
    }
  }

  /** On well-formed verdicts nothing is left for two claims to differ in once neither outranks the other. */
  lemma OutranksIsTotal(x: Verdict, y: Verdict)
    requires WellFormed(x) && WellFormed(y)
    ensures Outranks(x, y) || Outranks(y, x) || x == y
  {
    hide Less, For;
    LessIsTotal(x.reason, y.reason);
    LessIsTotal(x.detail, y.detail);
  }

  // ----- What a fold is of what went into it -----

  /** Every value a fold may be handed: its verdict is one row's, whole. */
  predicate Sane(r: Resolved) {
    WellFormed(VerdictOf(r))
  }

  ghost predicate Unbeaten(r: Resolved, said: set<Resolved>) {
    forall x :: x in said ==> !Outranks(VerdictOf(x), VerdictOf(r)) && !Steers(x, r)
  }

  ghost predicate Bounds(r: Resolved, said: set<Resolved>) {
    forall x :: x in said ==>
      && x.row.circuit <= r.row.circuit && x.row.budget <= r.row.budget && x.row.settle <= r.row.settle
      && (x.row.defined ==> r.row.defined)
  }

  ghost predicate Attained(r: Resolved, said: set<Resolved>) {
    && (exists x :: x in said && VerdictOf(x) == VerdictOf(r))
    && (exists x :: x in said && x.row.loop == r.row.loop && x.loopFrom == r.loopFrom)
    && (exists x :: x in said && x.row.circuit == r.row.circuit)
    && (exists x :: x in said && x.row.budget == r.row.budget)
    && (exists x :: x in said && x.row.settle == r.row.settle)
    && (exists x :: x in said && x.row.defined == r.row.defined)
  }

  /** `r` is what `said` resolves to: nothing said beats any part of it, and every part of it was said. */
  ghost predicate Resolves(r: Resolved, said: set<Resolved>) {
    && (forall x :: x in said ==> Sane(x))
    && Unbeaten(r, said) && Bounds(r, said) && Attained(r, said)
  }

  /** There is only one such value. */
  lemma ResolutionIsUnique(a: Resolved, b: Resolved, said: set<Resolved>)
    requires Resolves(a, said) && Resolves(b, said)
    ensures a == b
  {
    hide Less, Outranks, WellFormed;
    var va :| va in said && VerdictOf(va) == VerdictOf(a);
    var vb :| vb in said && VerdictOf(vb) == VerdictOf(b);
    OutranksIsTotal(VerdictOf(a), VerdictOf(b));
    assert VerdictOf(a) == VerdictOf(b);
    SameEffects(a, b, said);
    assert a.row == b.row;
  }

  lemma SameEffects(a: Resolved, b: Resolved, said: set<Resolved>)
    requires Unbeaten(a, said) && Bounds(a, said) && Attained(a, said)
    requires Unbeaten(b, said) && Bounds(b, said) && Attained(b, said)
    ensures a.row.loop == b.row.loop && a.loopFrom == b.loopFrom
    ensures a.row.circuit == b.row.circuit && a.row.budget == b.row.budget && a.row.settle == b.row.settle
    ensures a.row.defined == b.row.defined
  {
    hide Less, Outranks;
  }

  lemma OneResolvesItself(r: Resolved)
    requires Sane(r)
    ensures Resolves(r, {r})
  {
    hide Less;
    LessIsStrict(r.reason, r.reason);
    LessIsStrict(r.detail, r.detail);
  }

  /** Joining what two sets resolve to resolves their union: there is no order or grouping to remember. */
  lemma JoinResolvesTheUnion(a: Resolved, s: set<Resolved>, b: Resolved, t: set<Resolved>)
    requires Resolves(a, s) && Resolves(b, t)
    ensures Resolves(Join(a, b), s + t) && Sane(Join(a, b))
  {
    hide Join, Unbeaten, Attained, Bounds, Sane;
    JoinIsUnbeaten(a, s, b, t);
    JoinIsBounding(a, s, b, t);
    JoinIsAttained(a, s, b, t);
  }

  lemma JoinIsBounding(a: Resolved, s: set<Resolved>, b: Resolved, t: set<Resolved>)
    requires Bounds(a, s) && Bounds(b, t)
    ensures Bounds(Join(a, b), s + t)
  {
    hide Outranks, Steers;
  }

  lemma VerdictOfJoin(a: Resolved, b: Resolved)
    ensures VerdictOf(Join(a, b)) == if Outranks(VerdictOf(b), VerdictOf(a)) then VerdictOf(b) else VerdictOf(a)
  {
    hide Outranks, Steers;
  }

  lemma NeverOutranked(x: Resolved, a: Resolved, b: Resolved, s: set<Resolved>, t: set<Resolved>)
    requires Resolves(a, s) && Resolves(b, t) && x in s + t
    ensures !Outranks(VerdictOf(x), VerdictOf(Join(a, b)))
  {
    hide Outranks, Steers, Bounds, WellFormed;
    VerdictOfJoin(a, b);
    var va :| va in s && VerdictOf(va) == VerdictOf(a);
    var vb :| vb in t && VerdictOf(vb) == VerdictOf(b);
    var vx, p, q := VerdictOf(x), VerdictOf(a), VerdictOf(b);
    OutranksIsStrict(p, q);
    OutranksIsTotal(p, q);
    if Outranks(vx, p) && Outranks(p, q) {
      OutranksIsTransitive(vx, p, q);
    }
    if Outranks(vx, q) && Outranks(q, p) {
      OutranksIsTransitive(vx, q, p);
    }
  }

  lemma JoinIsUnbeaten(a: Resolved, s: set<Resolved>, b: Resolved, t: set<Resolved>)
    requires Resolves(a, s) && Resolves(b, t)
    ensures Unbeaten(Join(a, b), s + t)
  {
    hide Outranks, WellFormed, Bounds, Attained;
    forall x | x in s + t
      ensures !Outranks(VerdictOf(x), VerdictOf(Join(a, b))) && !Steers(x, Join(a, b))
    {
      NeverOutranked(x, a, b, s, t);
    }
  }

  lemma JoinIsAttained(a: Resolved, s: set<Resolved>, b: Resolved, t: set<Resolved>)
    requires Resolves(a, s) && Resolves(b, t)
    ensures Attained(Join(a, b), s + t) && Sane(Join(a, b))
  {
    hide Outranks, Steers, Unbeaten, Bounds;
    VerdictOfJoin(a, b);
    assert forall x :: x in s || x in t ==> x in s + t;
  }

  // ----- The laws of the fold -----

  lemma CombineIsCommutative(a: Resolved, b: Resolved)
    requires Sane(a) && Sane(b)
    ensures Join(a, b) == Join(b, a)
  {
    hide *;
    OneResolvesItself(a);
    OneResolvesItself(b);
    JoinResolvesTheUnion(a, {a}, b, {b});
    JoinResolvesTheUnion(b, {b}, a, {a});
    assert {a} + {b} == {b} + {a};
    ResolutionIsUnique(Join(a, b), Join(b, a), {a} + {b});
  }

  lemma CombineIsAssociative(a: Resolved, b: Resolved, c: Resolved)
    requires Sane(a) && Sane(b) && Sane(c)
    ensures Join(Join(a, b), c) == Join(a, Join(b, c))
  {
    hide *;
    OneResolvesItself(a);
    OneResolvesItself(b);
    OneResolvesItself(c);
    JoinResolvesTheUnion(a, {a}, b, {b});
    JoinResolvesTheUnion(b, {b}, c, {c});
    JoinResolvesTheUnion(Join(a, b), {a} + {b}, c, {c});
    JoinResolvesTheUnion(a, {a}, Join(b, c), {b} + {c});
    assert {a} + {b} + {c} == {a} + ({b} + {c});
    ResolutionIsUnique(Join(Join(a, b), c), Join(a, Join(b, c)), {a} + {b} + {c});
  }

  lemma CombineIsIdempotent(a: Resolved)
    requires Sane(a)
    ensures Join(a, a) == a
  {
    hide *;
    OneResolvesItself(a);
    JoinResolvesTheUnion(a, {a}, a, {a});
    assert {a} + {a} == {a};
    ResolutionIsUnique(Join(a, a), a, {a});
  }

  /** Commutativity needs the payload to be the named row's: two verdicts naming one row but not carrying it do not commute. */
  lemma PayloadsMustBeTheRows(code: nat, other: nat)
    requires code != other
    ensures (var a, b := ZERO.(row := BLANK.(code := code)), ZERO.(row := BLANK.(code := other));
             Join(a, b) == a && Join(b, a) == b)
  {
    var a, b := ZERO.(row := BLANK.(code := code)), ZERO.(row := BLANK.(code := other));
    assert !Outranks(VerdictOf(a), VerdictOf(b)) && !Outranks(VerdictOf(b), VerdictOf(a));
  }

  // ----- Order, repetition and grouping -----

  /** What a batch says, with the zero value every fold starts from. */
  function SaidIn(facts: seq<Fact>): set<Resolved> {
    {ZERO} + set f | f in facts :: Single(f)
  }

  lemma {:induction false} FoldResolves(facts: seq<Fact>)
    ensures Resolves(Fold(facts), SaidIn(facts)) && Sane(Fold(facts))
  {
    hide Resolves, Sane, Join, SaidIn, Single, For;
    SinglesAreSane();
    if facts == [] {
      OneResolvesItself(ZERO);
      NothingSaid();
    } else {
      var init, last := facts[..|facts| - 1], facts[|facts| - 1];
      FoldResolves(init);
      OneResolvesItself(Single(last));
      JoinResolvesTheUnion(Fold(init), SaidIn(init), Single(last), {Single(last)});
      SaidInOneMore(init, last);
      assert facts == init + [last];
    }
  }

  lemma NothingSaid()
    ensures SaidIn([]) == {ZERO}
  {
    hide Single;
  }

  lemma SaidInOneMore(facts: seq<Fact>, f: Fact)
    ensures SaidIn(facts + [f]) == SaidIn(facts) + {Single(f)}
  {
    hide Single;
    assert f in facts + [f];
  }

  lemma SinglesAreSane()
    ensures Sane(ZERO) && forall f: Fact :: Sane(Single(f))
  {
    forall f: Fact ensures Sane(Single(f)) {
      hide For;
    }
  }

  /** Every fact of every batch, in one row. */
  function Flat(batches: seq<seq<Fact>>): seq<Fact> {
    if batches == [] then [] else Flat(batches[..|batches| - 1]) + batches[|batches| - 1]
  }

  lemma {:induction false} FoldBatchesResolves(batches: seq<seq<Fact>>)
    ensures Resolves(FoldBatches(batches), SaidIn(Flat(batches)))
  {
    hide Resolves, Sane, Join;
    if batches == [] {
      SinglesAreSane();
      OneResolvesItself(ZERO);
      NothingSaid();
    } else {
      var n := |batches| - 1;
      FoldBatchesResolves(batches[..n]);
      FoldResolves(batches[n]);
      JoinResolvesTheUnion(FoldBatches(batches[..n]), SaidIn(Flat(batches[..n])), Fold(batches[n]), SaidIn(batches[n]));
      assert SaidIn(Flat(batches)) == SaidIn(Flat(batches[..n])) + SaidIn(batches[n]);
    }
  }

  /** The part of a fact a decision may depend on. */
  datatype Word = Word(kind: Kind, reason: string, detail: string)

  function Words(facts: seq<Fact>): set<Word> {
    set f | f in facts :: Word(f.kind, f.reason, f.detail)
  }

  lemma SameWordsSayTheSame(some: seq<Fact>, other: seq<Fact>)
    requires Words(some) <= Words(other)
    ensures SaidIn(some) <= SaidIn(other)
  {
    forall x | x in SaidIn(some)
      ensures x in SaidIn(other)
    {
      if x != ZERO {
        var f :| f in some && x == Single(f);
        assert Word(f.kind, f.reason, f.detail) in Words(other);
        var g :| g in other && Word(g.kind, g.reason, g.detail) == Word(f.kind, f.reason, f.detail);
        assert Single(g) == x;
      }
    }
  }

  /**
   The resolved decision depends on the set of (Kind, Reason, Detail) reported:
   not on the order, on repetitions, on who reported, nor on how the facts were
   grouped into reports.
   */
  lemma OnlyTheWordsMatter(one: seq<seq<Fact>>, other: seq<seq<Fact>>)
    requires Words(Flat(one)) == Words(Flat(other))
    ensures FoldBatches(one) == FoldBatches(other)
  {
    hide *;
    FoldBatchesResolves(one);
    FoldBatchesResolves(other);
    SameWordsSayTheSame(Flat(one), Flat(other));
    SameWordsSayTheSame(Flat(other), Flat(one));
    assert SaidIn(Flat(one)) == SaidIn(Flat(other));
    ResolutionIsUnique(FoldBatches(one), FoldBatches(other), SaidIn(Flat(one)));
  }

  /** Saying more never weakens an effect, nor the claim on the status. */
  lemma MoreFactsNeverWeaken(fewer: seq<seq<Fact>>, more: seq<seq<Fact>>)
    requires Words(Flat(fewer)) <= Words(Flat(more))
    ensures (var a, b := FoldBatches(fewer), FoldBatches(more);
             && a.row.loop <= b.row.loop && a.row.circuit <= b.row.circuit
             && a.row.budget <= b.row.budget && a.row.settle <= b.row.settle
             && Strength(a.row.status) <= Strength(b.row.status) && (a.row.defined ==> b.row.defined))
  {
    FoldBatchesResolves(fewer);
    FoldBatchesResolves(more);
    SameWordsSayTheSame(Flat(fewer), Flat(more));
    SubsetIsBounded(FoldBatches(fewer), SaidIn(Flat(fewer)), FoldBatches(more), SaidIn(Flat(more)));
  }

  lemma SubsetIsBounded(a: Resolved, s: set<Resolved>, b: Resolved, t: set<Resolved>)
    requires Resolves(a, s) && Resolves(b, t) && s <= t
    ensures a.row.loop <= b.row.loop && a.row.circuit <= b.row.circuit
    ensures a.row.budget <= b.row.budget && a.row.settle <= b.row.settle
    ensures Strength(a.row.status) <= Strength(b.row.status) && (a.row.defined ==> b.row.defined)
  {
    hide Less, WellFormed;
    var va :| va in s && VerdictOf(va) == VerdictOf(a);
    assert !Outranks(VerdictOf(va), VerdictOf(b));
  }

  // ----- Whose verdict it is -----

  /** The caller-facing verdict is one reported fact's, whole, or nobody's. */
  lemma VerdictIsOneFacts(batches: seq<seq<Fact>>)
    ensures (var v := VerdictOf(FoldBatches(batches));
             v == VerdictOf(ZERO) || exists f :: f in Flat(batches) && v == VerdictOf(Single(f)))
  {
    hide FoldBatches, Flat, Unbeaten, Bounds, Sane, For, Single;
    FoldBatchesResolves(batches);
    var x :| x in SaidIn(Flat(batches)) && VerdictOf(x) == VerdictOf(FoldBatches(batches));
    if x != ZERO {
      var f :| f in Flat(batches) && x == Single(f);
    }
  }

  /** What the caller is shown and the reason persisted are those of one reported fact alone, or of the bare seed. */
  lemma CallerSeesOneFact(batches: seq<seq<Fact>>, upstreamStatus: nat, upstreamErrType: string)
    ensures (var r := FoldBatches(batches);
             exists x :: (x == ZERO || exists f :: f in Flat(batches) && x == Single(f))
                         && CallerFacing(r, upstreamStatus, upstreamErrType) == CallerFacing(x, upstreamStatus, upstreamErrType)
                         && FailReason(r) == FailReason(x) && r.row.sticky == x.row.sticky && r.detail == x.detail)
  {
    hide FoldBatches, Flat, Single, KindName;
    var v := VerdictOf(FoldBatches(batches));
    VerdictIsOneFacts(batches);
    if v != VerdictOf(ZERO) {
      var f :| f in Flat(batches) && v == VerdictOf(Single(f));
    }
  }

  /** A row that says something about the status. */
  predicate Opinionated(f: Fact) {
    For(f.kind).status != NoStatus
  }

  /**
   The zero value every fold starts from is not neutral: it holds the verdict
   against every fact whose row says nothing about the status, so such facts lose
   their reason and detail. The verdict is a reported fact's exactly when some
   reported fact has an opinion about the status.
   */
  lemma VerdictNeedsAnOpinion(batches: seq<seq<Fact>>)
    ensures (var v := VerdictOf(FoldBatches(batches));
             && ((exists f :: f in Flat(batches) && Opinionated(f))
                 ==> exists f :: f in Flat(batches) && Opinionated(f) && v == VerdictOf(Single(f)))
             && ((forall f :: f in Flat(batches) ==> !Opinionated(f))
                 ==> v == VerdictOf(ZERO) && FailReason(FoldBatches(batches)) == "none"))
  {
    hide FoldBatches, Flat, Outranks, For, Bounds, Attained, Sane;
    var r, said := FoldBatches(batches), SaidIn(Flat(batches));
    FoldBatchesResolves(batches);
    VerdictIsOneFacts(batches);
    if exists f :: f in Flat(batches) && Opinionated(f) {
      var f :| f in Flat(batches) && Opinionated(f);
      assert Single(f) in said && !Outranks(VerdictOf(Single(f)), VerdictOf(r));
      OpinionBeatsNone(f, VerdictOf(r));
    } else if VerdictOf(r) != VerdictOf(ZERO) {
      var f :| f in Flat(batches) && VerdictOf(r) == VerdictOf(Single(f));
      assert ZERO in said && !Outranks(VerdictOf(ZERO), VerdictOf(r));
      ZeroHoldsAgainst(f);
    }
  }

  /** A rejected credential reported alone: its row has no opinion on the status, so the reason given is gone. */
  lemma AuthRejectionLosesItsReason(f: Fact)
    requires f.kind == UPSTREAM_AUTH_REJECTED
    ensures FoldBatches([[f]]).reason == "" && FoldBatches([[f]]).detail == "" && FailReason(FoldBatches([[f]])) == "none"
  {
    hide FoldBatches;
    assert [[f]][..0] == [] && Flat([[f]]) == [f];
    VerdictNeedsAnOpinion([[f]]);
  }

  lemma OpinionBeatsNone(f: Fact, v: Verdict)
    requires Opinionated(f) && !Outranks(VerdictOf(Single(f)), v)
    ensures v.status != NoStatus
  {
    hide For;
  }

  lemma ZeroHoldsAgainst(f: Fact)
    requires !Opinionated(f) && !Outranks(VerdictOf(ZERO), VerdictOf(Single(f)))
    ensures VerdictOf(Single(f)) == VerdictOf(ZERO)
  {
    assert f.reason == "" && f.detail == "";
  }

  /** Exactly which values the zero value is neutral for. */
  lemma ZeroIsNeutralExactlyWhen(r: Resolved)
    requires Sane(r)
    ensures Join(ZERO, r) == r
            <==> (r.row.loop > LOOP_NONE || r.loopFrom == NONE)
                 && (r.row.status != NoStatus || VerdictOf(r) == VerdictOf(ZERO))
  {
    hide For;
    VerdictOfJoin(ZERO, r);
    assert VerdictOf(ZERO) == Verdict(NoStatus, 0, "", false, NONE, "", "");
  }

  /** Every Kind has a row, and no other number does. */
  lemma EveryKindHasARow(k: Kind)
    ensures For(k).defined <==> k < NUM_KINDS
  {
  }
}
