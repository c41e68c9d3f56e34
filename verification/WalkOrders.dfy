/**
 The order a provider's keys are walked in: every key once, healthy ones first,
 benched ones soonest-to-recover first, and the healthy ones taking turns.
 */
module WalkOrders {
  import opened Wrappers
  import opened KeyPool

  /** Row IDs are distinct in any key list. */
  predicate DistinctIds(keys: seq<ProviderKey>) {
    forall i, j :: 0 <= i < j < |keys| ==> keys[i].id != keys[j].id
  }

  // ----- Nothing is lost: the partition -----

  lemma KeysOfOneMore(line: seq<Waiting>, w: Waiting)
    ensures KeysOf(line + [w]) == KeysOf(line) + [w.key]
  {
  }

  lemma OneMoreIsPlaced(states: States, keys: seq<ProviderKey>, now: nat)
    requires keys != []
    ensures (var n := |keys| - 1;
             multiset(Ready(states, keys, now)) + multiset(KeysOf(Tail(states, keys, now)))
             == multiset(Ready(states, keys[..n], now)) + multiset(KeysOf(Tail(states, keys[..n], now))) + multiset{keys[n]})
  {
    hide Sweep, KeysOf;
    var n := |keys| - 1;
    var at := Sweep(states, keys[..n], now);
    if Cooling(at, keys[n], now) {
      KeysOfOneMore(Tail(states, keys[..n], now), Waiting(keys[n], at[keys[n].id].benchUntil));
      assert Ready(states, keys, now) == Ready(states, keys[..n], now);
    } else {
      assert Tail(states, keys, now) == Tail(states, keys[..n], now);
    }
  }

  lemma {:induction false} PartitionKeepsAll(states: States, keys: seq<ProviderKey>, now: nat)
    ensures multiset(Ready(states, keys, now)) + multiset(KeysOf(Tail(states, keys, now))) == multiset(keys)
  {
    if keys != [] {
      hide Ready, Tail, KeysOf;
      var n := |keys| - 1;
      PartitionKeepsAll(states, keys[..n], now);
      assert keys == keys[..n] + [keys[n]];
      OneMoreIsPlaced(states, keys, now);
    }
  }

  lemma {:induction false} SlotKeepsAll(line: seq<Waiting>, w: Waiting)
    ensures multiset(KeysOf(Slot(line, w))) == multiset(KeysOf(line)) + multiset{w.key}
    ensures forall x :: x in Slot(line, w) <==> x in line || x == w
  {
    if line == [] || line[|line| - 1].expiry <= w.expiry {
      assert KeysOf(line + [w]) == KeysOf(line) + [w.key];
    } else {
      var n := |line| - 1;
      SlotKeepsAll(line[..n], w);
      assert line == line[..n] + [line[n]];
      assert KeysOf(Slot(line[..n], w) + [line[n]]) == KeysOf(Slot(line[..n], w)) + [line[n].key];
      assert KeysOf(line) == KeysOf(line[..n]) + [line[n].key];
    }
  }

  lemma {:induction false} SortKeepsAll(line: seq<Waiting>)
    ensures multiset(KeysOf(BySoonest(line))) == multiset(KeysOf(line))
    ensures forall x :: x in BySoonest(line) <==> x in line
  {
    if line != [] {
      var n := |line| - 1;
      SortKeepsAll(line[..n]);
      SlotKeepsAll(BySoonest(line[..n]), line[n]);
      assert line == line[..n] + [line[n]];
      assert KeysOf(line) == KeysOf(line[..n]) + [line[n].key];
    }
  }

  /** A walk is a permutation of the keys it was given: being benched excludes no key. */
  lemma WalkIsAPermutation(states: States, cursor: nat, keys: seq<ProviderKey>, now: nat)
    ensures multiset(Walk(states, cursor, keys, now)) == multiset(keys)
  {
    if |keys| >= 2 {
      var ready := Ready(states, keys, now);
      PartitionKeepsAll(states, keys, now);
      SortKeepsAll(Tail(states, keys, now));
      if ready != [] {
        var start := cursor % |ready|;
        assert ready == ready[..start] + ready[start..];
      }
    }
  }

  // ----- Who walks where -----

  lemma {:induction false} SweepLeavesOthers(states: States, keys: seq<ProviderKey>, now: nat, id: nat)
    requires forall i :: 0 <= i < |keys| ==> keys[i].id != id
    ensures Lookup(Sweep(states, keys, now), id) == Lookup(states, id)
  {
    if keys != [] {
      SweepLeavesOthers(states, keys[..|keys| - 1], now, id);
    }
  }

  /** `a` comes before `b` in the caller's order. */
  predicate Before(keys: seq<ProviderKey>, a: ProviderKey, b: ProviderKey) {
    exists i, j :: 0 <= i < j < |keys| && keys[i] == a && keys[j] == b
  }

  /** Soonest expiry first, the caller's order between equals. */
  ghost predicate InLine(keys: seq<ProviderKey>, line: seq<Waiting>) {
    forall i, j :: 0 <= i < j < |line| ==>
      line[i].expiry < line[j].expiry || (line[i].expiry == line[j].expiry && Before(keys, line[i].key, line[j].key))
  }

  lemma {:induction false} ReadyAreHealthy(states: States, keys: seq<ProviderKey>, now: nat)
    requires DistinctIds(keys)
    ensures forall k :: k in Ready(states, keys, now) ==> !Cooling(states, k, now)
  {
    if keys != [] {
      var n := |keys| - 1;
      ReadyAreHealthy(states, keys[..n], now);
      SweepLeavesOthers(states, keys[..n], now, keys[n].id);
    }
  }

  lemma {:induction false} TailIsCooling(states: States, keys: seq<ProviderKey>, now: nat)
    requires DistinctIds(keys)
    ensures forall w :: w in Tail(states, keys, now) ==>
              w.key in keys && Cooling(states, w.key, now) && w.expiry == states[w.key.id].benchUntil
  {
    if keys != [] {
      var n := |keys| - 1;
      TailIsCooling(states, keys[..n], now);
      SweepLeavesOthers(states, keys[..n], now, keys[n].id);
    }
  }

  lemma {:induction false} TailKeepsOrder(states: States, keys: seq<ProviderKey>, now: nat, i: nat, j: nat)
    requires DistinctIds(keys) && i < j < |Tail(states, keys, now)|
    ensures Before(keys, Tail(states, keys, now)[i].key, Tail(states, keys, now)[j].key)
  {
    var n := |keys| - 1;
    var before := Tail(states, keys[..n], now);
    if j < |before| {
      TailKeepsOrder(states, keys[..n], now, i, j);
      var a, b :| 0 <= a < b < n && keys[..n][a] == before[i].key && keys[..n][b] == before[j].key;
      assert keys[a] == before[i].key && keys[b] == before[j].key;
    } else {
      TailIsCooling(states, keys[..n], now);
      assert before[i] in before;
      var a :| 0 <= a < n && keys[..n][a] == before[i].key;
      assert keys[a] == before[i].key && keys[n] == Tail(states, keys, now)[j].key;
    }
  }

  lemma {:induction false} SlotStaysInLine(keys: seq<ProviderKey>, line: seq<Waiting>, w: Waiting)
    requires InLine(keys, line) && forall x :: x in line ==> Before(keys, x.key, w.key)
    ensures InLine(keys, Slot(line, w))
  {
    hide Before;
    if line != [] && line[|line| - 1].expiry > w.expiry {
      var n := |line| - 1;
      SlotStaysInLine(keys, line[..n], w);
      SlotKeepsAll(line[..n], w);
      var out := Slot(line[..n], w);
      forall i | 0 <= i < |out|
        ensures out[i].expiry < line[n].expiry
                || (out[i].expiry == line[n].expiry && Before(keys, out[i].key, line[n].key))
      {
        assert out[i] in out;
        if out[i] != w {
          var a :| 0 <= a < n && line[a] == out[i];
        }
      }
    } else {
      forall i | 0 <= i < |line|
        ensures line[i].expiry <= w.expiry && Before(keys, line[i].key, w.key)
      {
        assert line[i] in line;
      }
    }
  }

  lemma {:induction false} SortStandsInLine(keys: seq<ProviderKey>, line: seq<Waiting>)
    requires forall i, j :: 0 <= i < j < |line| ==> Before(keys, line[i].key, line[j].key)
    ensures InLine(keys, BySoonest(line))
  {
    if line != [] {
      var n := |line| - 1;
      SortStandsInLine(keys, line[..n]);
      SortKeepsAll(line[..n]);
      SlotStaysInLine(keys, BySoonest(line[..n]), line[n]);
    }
  }

  /**
   Every healthy key walks before every cooling one, and the cooling ones walk
   soonest-to-recover first, the caller's order deciding between equals.
   */
  lemma HealthyWalkFirst(states: States, cursor: nat, keys: seq<ProviderKey>, now: nat)
    requires |keys| >= 2 && DistinctIds(keys)
    ensures (var walk, n := Walk(states, cursor, keys, now), |Ready(states, keys, now)|;
             && n <= |walk|
             && (forall i :: 0 <= i < n ==> !Cooling(states, walk[i], now))
             && (forall i :: n <= i < |walk| ==> Cooling(states, walk[i], now))
             && (forall i, j :: n <= i < j < |walk| ==>
                   var a, b := states[walk[i].id].benchUntil, states[walk[j].id].benchUntil;
                   a < b || (a == b && Before(keys, walk[i], walk[j]))))
  {
    hide Cooling, Ready, Tail, Rotated, BySoonest;
    var ready, tail := Ready(states, keys, now), Tail(states, keys, now);
    var front, line := Rotated(ready, cursor), BySoonest(tail);
    var walk := Walk(states, cursor, keys, now);
    ReadyAreHealthy(states, keys, now);
    RotationKeepsMembers(ready, cursor);
    LineIsCooling(states, keys, now);
    assert walk == front + KeysOf(line);
    forall i | |ready| <= i < |walk| ensures walk[i] == line[i - |ready|].key {
    }
  }

  lemma RotationKeepsMembers<T>(s: seq<T>, cursor: nat)
    ensures |Rotated(s, cursor)| == |s| && forall i :: 0 <= i < |s| ==> Rotated(s, cursor)[i] in s
  {
    if s != [] {
      var start := cursor % |s|;
      assert forall i :: 0 <= i < |s| ==>
        Rotated(s, cursor)[i] == if i < |s| - start then s[start + i] else s[i - (|s| - start)];
    }
  }

  lemma LineIsCooling(states: States, keys: seq<ProviderKey>, now: nat)
    requires DistinctIds(keys)
    ensures (var line := BySoonest(Tail(states, keys, now));
             && InLine(keys, line)
             && forall i :: 0 <= i < |line| ==>
                  && Cooling(states, line[i].key, now) && line[i].key.id in states
                  && line[i].expiry == states[line[i].key.id].benchUntil)
  {
    var tail := Tail(states, keys, now);
    TailIsCooling(states, keys, now);
    SortKeepsAll(tail);
    forall i, j | 0 <= i < j < |tail| ensures Before(keys, tail[i].key, tail[j].key) {
      TailKeepsOrder(states, keys, now, i, j);
    }
    SortStandsInLine(keys, tail);
    var line := BySoonest(tail);
    assert forall i :: 0 <= i < |line| ==> line[i] in line;
  }

  // ----- Taking turns -----

  /** Which of n healthy keys the i-th of a row of walks starts at, the counter running from `cursor`. */
  function StartAt(cursor: nat, i: nat, n: nat): (r: nat)
    requires 0 < n
    ensures r < n
  {
    (cursor + i) % CURSOR_SPAN % n
  }

  /** The keys that n consecutive walks start with, n healthy keys staying the same. */
  function Starts(ready: seq<ProviderKey>, cursor: nat): (r: seq<ProviderKey>)
    requires ready != []
    ensures |r| == |ready|
  {
    seq(|ready|, i requires 0 <= i < |ready| => ready[StartAt(cursor, i, |ready|)])
  }

  /** A walk with a healthy key starts at the healthy key its cursor points to. */
  lemma WalkStartsAtTheCursor(states: States, cursor: nat, keys: seq<ProviderKey>, now: nat)
    requires |keys| >= 2 && Ready(states, keys, now) != [] && cursor < CURSOR_SPAN
    ensures (var ready := Ready(states, keys, now);
             Walk(states, cursor, keys, now) != [] && Walk(states, cursor, keys, now)[0] == ready[StartAt(cursor, 0, |ready|)])
  {
    hide Ready, Tail, BySoonest, Rotated, StartAt;
    var ready := Ready(states, keys, now);
    RotationStart(ready, cursor);
    assert Walk(states, cursor, keys, now) == Rotated(ready, cursor) + KeysOf(BySoonest(Tail(states, keys, now)));
  }

  lemma RotationStart<T>(s: seq<T>, cursor: nat)
    requires s != [] && cursor < CURSOR_SPAN
    ensures Rotated(s, cursor) != [] && Rotated(s, cursor)[0] == s[StartAt(cursor, 0, |s|)]
  {
    ModIs(cursor, 0, cursor, CURSOR_SPAN);
  }

  lemma StartBeforeTheWrap(cursor: nat, i: nat, n: nat)
    requires i < n && cursor + i < CURSOR_SPAN
    ensures StartAt(cursor, i, n) == if cursor % n + i < n then cursor % n + i else cursor % n + i - n
  {
    var q, r := cursor / n, cursor % n;
    assert cursor == q * n + r;
    ModIs(cursor + i, 0, cursor + i, CURSOR_SPAN);
    if r + i < n {
      ModIs(cursor + i, q, r + i, n);
    } else {
      assert (q + 1) * n == q * n + n;
      ModIs(cursor + i, q + 1, r + i - n, n);
    }
  }

  lemma StartAfterTheWrap(cursor: nat, i: nat, n: nat)
    requires i < n && cursor < CURSOR_SPAN <= cursor + i && cursor + i - CURSOR_SPAN < n && cursor + i < 2 * CURSOR_SPAN
    ensures StartAt(cursor, i, n) == cursor + i - CURSOR_SPAN
  {
    ModIs(cursor + i, 1, cursor + i - CURSOR_SPAN, CURSOR_SPAN);
    ModIs(cursor + i - CURSOR_SPAN, 0, cursor + i - CURSOR_SPAN, n);
  }

  lemma StartsWithoutWrap(ready: seq<ProviderKey>, cursor: nat)
    requires ready != [] && cursor + |ready| <= CURSOR_SPAN
    ensures Starts(ready, cursor) == Rotated(ready, cursor)
  {
    hide StartAt;
    forall i | 0 <= i < |ready| ensures Starts(ready, cursor)[i] == Rotated(ready, cursor)[i] {
      StartBeforeTheWrap(cursor, i, |ready|);
    }
  }

  /** A wrap goes unnoticed when the number of healthy keys divides the counter's span. */
  lemma StartsAcrossADividingWrap(ready: seq<ProviderKey>, cursor: nat)
    requires 0 < |ready| <= CURSOR_SPAN && cursor < CURSOR_SPAN < cursor + |ready| && CURSOR_SPAN % |ready| == 0
    ensures Starts(ready, cursor) == Rotated(ready, cursor)
  {
    hide StartAt;
    var n, q := |ready|, CURSOR_SPAN / |ready|;
    assert CURSOR_SPAN == q * n;
    assert cursor == (q - 1) * n + (cursor - (CURSOR_SPAN - n)) by {
      assert (q - 1) * n == q * n - n;
    }
    ModIs(cursor, q - 1, cursor - (CURSOR_SPAN - n), n);
    forall i | 0 <= i < n ensures Starts(ready, cursor)[i] == Rotated(ready, cursor)[i] {
      if cursor + i < CURSOR_SPAN {
        StartBeforeTheWrap(cursor, i, n);
      } else {
        StartAfterTheWrap(cursor, i, n);
      }
    }
  }

  lemma RotationIsAPermutation<T>(s: seq<T>, cursor: nat)
    ensures multiset(Rotated(s, cursor)) == multiset(s)
  {
    if s != [] {
      assert s == s[..cursor % |s|] + s[cursor % |s|..];
    }
  }

  /** Across any other wrap some key is started at twice. */
  lemma TheWrapRepeatsATurn(ready: seq<ProviderKey>, cursor: nat)
    requires 0 < |ready| <= CURSOR_SPAN && cursor < CURSOR_SPAN < cursor + |ready| && CURSOR_SPAN % |ready| != 0
    ensures exists i, j :: 0 <= i < j < |ready| && Starts(ready, cursor)[i] == Starts(ready, cursor)[j]
  {
    hide StartAt;
    var n, left := |ready|, CURSOR_SPAN - cursor;
    var q, r := CURSOR_SPAN / n, CURSOR_SPAN % n;
    assert CURSOR_SPAN == q * n + r;
    if r < left {
      RepeatEarly(cursor, n, q, r);
      assert Starts(ready, cursor)[left - r] == Starts(ready, cursor)[left];
    } else {
      RepeatLate(cursor, n, q, r);
      assert Starts(ready, cursor)[0] == Starts(ready, cursor)[r];
    }
  }

  /** Keys that differ are not a permutation of a list that holds one of them twice. */
  lemma RepeatIsNoPermutation(a: seq<ProviderKey>, b: seq<ProviderKey>, i: nat, j: nat)
    requires i < j < |a| && a[i] == a[j] && forall k, l :: 0 <= k < l < |b| ==> b[k] != b[l]
    ensures multiset(a) != multiset(b)
  {
    assert a == a[..i] + [a[i]] + a[i + 1..j] + [a[j]] + a[j + 1..];
    assert multiset(a)[a[i]] >= 2;
    CountedOnce(b, a[i]);
  }

  lemma {:induction false} CountedOnce(s: seq<ProviderKey>, x: ProviderKey)
    requires forall k, l :: 0 <= k < l < |s| ==> s[k] != s[l]
    ensures multiset(s)[x] <= 1
  {
    if s != [] {
      var n := |s| - 1;
      CountedOnce(s[..n], x);
      assert s == s[..n] + [s[n]];
      if s[n] == x {
        assert x !in s[..n];
      }
    }
  }

  /**
   n consecutive walks over n healthy keys start once at each, if and only if the
   counter does not wrap on the way or n divides its span.
   */
  lemma TurnsAreFairExactlyWhen(ready: seq<ProviderKey>, cursor: nat)
    requires 0 < |ready| <= CURSOR_SPAN && cursor < CURSOR_SPAN && DistinctIds(ready)
    ensures multiset(Starts(ready, cursor)) == multiset(ready)
            <==> cursor + |ready| <= CURSOR_SPAN || CURSOR_SPAN % |ready| == 0
  {
    hide Starts, Rotated;
    RotationIsAPermutation(ready, cursor);
    if cursor + |ready| <= CURSOR_SPAN {
      StartsWithoutWrap(ready, cursor);
    } else if CURSOR_SPAN % |ready| == 0 {
      StartsAcrossADividingWrap(ready, cursor);
    } else {
      TheWrapRepeatsATurn(ready, cursor);
      var i, j :| 0 <= i < j < |ready| && Starts(ready, cursor)[i] == Starts(ready, cursor)[j];
      RepeatIsNoPermutation(Starts(ready, cursor), ready, i, j);
    }
  }

  /** One walk of a row of them: the records it found, the clock, the order it returned. */
  datatype Walked = Walked(states: States, now: nat, order: seq<ProviderKey>)

  /** Consecutive walks of one provider's keys, the counter running from `cursor`, the healthy ones staying the same. */
  predicate IsRowOfWalks(keys: seq<ProviderKey>, ready: seq<ProviderKey>, cursor: nat, walks: seq<Walked>) {
    && |keys| >= 2
    && forall i :: 0 <= i < |walks| ==>
         && Ready(walks[i].states, keys, walks[i].now) == ready
         && walks[i].order == Walk(walks[i].states, (cursor + i) % CURSOR_SPAN, keys, walks[i].now)
  }

  /** The keys such a row starts with. */
  function FirstOf(walks: seq<Walked>): seq<ProviderKey>
    requires forall i :: 0 <= i < |walks| ==> walks[i].order != []
  {
    seq(|walks|, i requires 0 <= i < |walks| => walks[i].order[0])
  }

  lemma RowStartsInTurn(keys: seq<ProviderKey>, ready: seq<ProviderKey>, cursor: nat, walks: seq<Walked>)
    requires IsRowOfWalks(keys, ready, cursor, walks) && ready != [] && |walks| == |ready|
    ensures forall i :: 0 <= i < |walks| ==> walks[i].order != []
    ensures FirstOf(walks) == Starts(ready, cursor)
  {
    hide Walk, Ready, StartAt;
    forall i | 0 <= i < |walks|
      ensures walks[i].order != [] && walks[i].order[0] == ready[StartAt(cursor, i, |ready|)]
    {
      var at := (cursor + i) % CURSOR_SPAN;
      WalkStartsAtTheCursor(walks[i].states, at, keys, walks[i].now);
      StartAgrees(cursor, i, |ready|);
    }
  }

  lemma StartAgrees(cursor: nat, i: nat, n: nat)
    requires 0 < n
    ensures (cursor + i) % CURSOR_SPAN < CURSOR_SPAN
    ensures StartAt((cursor + i) % CURSOR_SPAN, 0, n) == StartAt(cursor, i, n)
  {
    var at := (cursor + i) % CURSOR_SPAN;
    ModIs(at, 0, at, CURSOR_SPAN);
  }

  /**
   Any n consecutive walks of a pool whose n healthy keys stay the same, whatever
   happens to the benched ones and to the clock, start once at each healthy key,
   if and only if the counter does not wrap on the way or n divides its span.
   */
  lemma EveryHealthyKeyGetsItsTurn(keys: seq<ProviderKey>, ready: seq<ProviderKey>, cursor: nat, walks: seq<Walked>)
    requires IsRowOfWalks(keys, ready, cursor, walks) && |walks| == |ready| && DistinctIds(ready)
    requires 0 < |ready| <= CURSOR_SPAN && cursor < CURSOR_SPAN
    ensures forall i :: 0 <= i < |walks| ==> walks[i].order != []
    ensures multiset(FirstOf(walks)) == multiset(ready)
            <==> cursor + |ready| <= CURSOR_SPAN || CURSOR_SPAN % |ready| == 0
  {
    hide Starts, IsRowOfWalks;
    RowStartsInTurn(keys, ready, cursor, walks);
    TurnsAreFairExactlyWhen(ready, cursor);
  }

  lemma RepeatEarly(cursor: nat, n: nat, q: nat, r: nat)
    requires cursor < CURSOR_SPAN < cursor + n && n <= CURSOR_SPAN && CURSOR_SPAN == q * n + r
    requires 0 < r < n && r < CURSOR_SPAN - cursor
    ensures StartAt(cursor, CURSOR_SPAN - cursor - r, n) == 0 == StartAt(cursor, CURSOR_SPAN - cursor, n)
  {
    var i := CURSOR_SPAN - cursor - r;
    ModIs(cursor + i, 0, cursor + i, CURSOR_SPAN);
    ModIs(cursor + i, q, 0, n);
    StartAfterTheWrap(cursor, CURSOR_SPAN - cursor, n);
  }

  lemma RepeatLate(cursor: nat, n: nat, q: nat, r: nat)
    requires cursor < CURSOR_SPAN < cursor + n && n <= CURSOR_SPAN && CURSOR_SPAN == q * n + r
    requires 0 < r < n && r >= CURSOR_SPAN - cursor
    ensures StartAt(cursor, 0, n) == r - (CURSOR_SPAN - cursor) == StartAt(cursor, r, n)
  {
    ModIs(cursor, 0, cursor, CURSOR_SPAN);
    ModIs(cursor, q, r - (CURSOR_SPAN - cursor), n);
    StartAfterTheWrap(cursor, r, n);
  }
}
