/** What the other modules share: optional values, bytes, the smaller and the larger of two. */
module Wrappers {
  datatype Option<+T> = None | Some(value: T)

  type Byte = bv8
  type Bytes = seq<Byte>

  function Min(a: nat, b: nat): nat {
    if a < b then a else b
  }

  function Max(a: nat, b: nat): nat {
    if a < b then b else a
  }

  /** `at` lists, in ascending order, exactly the places of `src` where `keep` holds. */
  predicate Lists<T>(at: seq<nat>, src: seq<T>, keep: T -> bool) {
    && (forall i :: 0 <= i < |at| ==> at[i] < |src| && keep(src[at[i]]))
    && (forall i, j :: 0 <= i < j < |at| ==> at[i] < at[j])
    && (forall k: nat :: k < |src| && keep(src[k]) ==> k in at)
  }

  /** `out` is what stands at those places. */
  predicate Picks<T(==)>(out: seq<T>, at: seq<nat>, src: seq<T>) {
    |out| == |at| && forall i :: 0 <= i < |at| ==> at[i] < |src| && out[i] == src[at[i]]
  }

  /** `out` is the elements of `src` that `keep` wants, each as often as it occurs and in order. */
  ghost predicate IsFilter<T>(out: seq<T>, src: seq<T>, keep: T -> bool) {
    exists at: seq<nat> :: Lists(at, src, keep) && Picks(out, at, src)
  }

  lemma NothingFiltered<T>(keep: T -> bool)
    ensures IsFilter([], [], keep)
  {
    var none: seq<T>, at: seq<nat> := [], [];
    assert Lists(at, none, keep) && Picks(none, at, none);
  }

  lemma ListsOneMore<T>(at: seq<nat>, src: seq<T>, x: T, keep: T -> bool)
    requires Lists(at, src, keep)
    ensures keep(x) ==> Lists(at + [|src|], src + [x], keep)
    ensures !keep(x) ==> Lists(at, src + [x], keep)
  {
    var more, longer := src + [x], at + [|src|];
    forall k: nat | k < |more| && keep(more[k]) ensures k in at || k == |src| {
      if k < |src| {
        assert keep(src[k]);
      }
    }
    assert forall k: nat :: k in at ==> k in longer;
    assert longer[|at|] == |src| && |src| in longer;
  }

  lemma FilterOneMore<T>(out: seq<T>, src: seq<T>, x: T, keep: T -> bool)
    requires IsFilter(out, src, keep)
    ensures IsFilter(out + if keep(x) then [x] else [], src + [x], keep)
  {
    hide Lists;
    var at: seq<nat> :| Lists(at, src, keep) && Picks(out, at, src);
    ListsOneMore(at, src, x, keep);
    if keep(x) {
      assert Picks(out + [x], at + [|src|], src + [x]);
    } else {
      assert out + [] == out && Picks(out, at, src + [x]);
    }
  }

  /** Nothing is wanted exactly when nothing is left. */
  lemma FilterIsEmpty<T>(out: seq<T>, src: seq<T>, keep: T -> bool)
    requires IsFilter(out, src, keep)
    ensures out == [] <==> forall x :: x in src ==> !keep(x)
  {
    var at: seq<nat> :| Lists(at, src, keep) && Picks(out, at, src);
    if out == [] {
      forall x | x in src ensures !keep(x) {
        var k :| 0 <= k < |src| && src[k] == x;
        assert at == [];
      }
    } else {
      assert src[at[0]] in src;
    }
  }

  // ----- Quotients and remainders -----

  lemma Scaled(d: int, n: nat)
    ensures d >= 1 ==> d * n >= n
    ensures d <= -1 ==> d * n + n <= 0
  {
    if d >= 1 {
      assert d * n == n + (d - 1) * n;
    }
  }

  /** Division is determined by its quotient and remainder. */
  lemma ModIs(x: nat, q: int, r: nat, n: nat)
    requires 0 < n && r < n && x == q * n + r
    ensures x % n == r && x / n == q
  {
    var d := x / n - q;
    assert x == (x / n) * n + x % n;
    assert d * n == (x / n) * n - q * n;
    Scaled(d, n);
  }
}
