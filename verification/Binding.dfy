/**
 The sticky-binding registry (internal/gateway/binding.go): caller keys bound to
 providers, a redundant count index, least-bound-first choice, quarantine
 windows, and least-recently-used eviction at a bound.
 */
module Binding {
  import opened Wrappers

  const CAPACITY := 4096

  /** Thirty seconds, in nanoseconds. */
  const DEAD_END_COOLDOWN := 30_000_000_000

  datatype Key = Key(apiKey: nat, model: nat)
  datatype CountKey = CountKey(model: nat, provider: nat)
  datatype Target = Target(provider: nat, candidate: nat, lastUsed: int)
  datatype Candidate = Candidate(id: nat, provider: nat)

  type Bindings = map<Key, Target>

  // ----- Counting -----

  function BoundTo(b: Bindings, ck: CountKey): set<Key> {
    set k | k in b && k.model == ck.model && b[k].provider == ck.provider
  }

  function CountOf(b: Bindings, ck: CountKey): nat {
    |BoundTo(b, ck)|
  }

  function Recorded(counts: map<CountKey, nat>, ck: CountKey): nat {
    if ck in counts then counts[ck] else 0
  }

  /** The index holds exactly the non-zero counts. */
  ghost predicate Agrees(b: Bindings, counts: map<CountKey, nat>) {
    forall ck :: (ck in counts <==> CountOf(b, ck) > 0) && Recorded(counts, ck) == CountOf(b, ck)
  }

  function TargetKey(k: Key, t: Target): CountKey {
    CountKey(k.model, t.provider)
  }

  lemma CountWithout(b: Bindings, k: Key, ck: CountKey)
    requires k in b
    ensures CountOf(b - {k}, ck) == CountOf(b, ck) - if ck == TargetKey(k, b[k]) then 1 else 0
    ensures ck == TargetKey(k, b[k]) ==> CountOf(b, ck) > 0
  {
    if ck == TargetKey(k, b[k]) {
      assert BoundTo(b, ck) == BoundTo(b - {k}, ck) + {k};
    } else {
      assert BoundTo(b, ck) == BoundTo(b - {k}, ck);
    }
  }

  lemma CountWith(b: Bindings, k: Key, t: Target, ck: CountKey)
    requires k !in b
    ensures CountOf(b[k := t], ck) == CountOf(b, ck) + if ck == TargetKey(k, t) then 1 else 0
  {
    if ck == TargetKey(k, t) {
      assert BoundTo(b[k := t], ck) == BoundTo(b, ck) + {k};
    } else {
      assert BoundTo(b[k := t], ck) == BoundTo(b, ck);
    }
  }

  lemma CountTouched(b: Bindings, k: Key, now: int, ck: CountKey)
    requires k in b
    ensures CountOf(b[k := b[k].(lastUsed := now)], ck) == CountOf(b, ck)
  {
    assert BoundTo(b[k := b[k].(lastUsed := now)], ck) == BoundTo(b, ck);
  }

  // ----- Eligibility -----

  predicate InWindow(deadEnds: map<nat, int>, provider: nat, now: int) {
    provider in deadEnds && now < deadEnds[provider]
  }

  /** A candidate new assignments may land on: its provider neither dead nor quarantined. */
  predicate IsEligible(c: Candidate, dead: set<nat>, deadEnds: map<nat, int>, now: int) {
    c.provider !in dead && !InWindow(deadEnds, c.provider, now)
  }

  function Eligible(candidates: seq<Candidate>, dead: set<nat>, deadEnds: map<nat, int>, now: int): seq<Candidate> {
    if candidates == [] then []
    else
      var last := candidates[|candidates| - 1];
      Eligible(candidates[..|candidates| - 1], dead, deadEnds, now)
      + if IsEligible(last, dead, deadEnds, now) then [last] else []
  }

  lemma {:induction false} EligibleAre(candidates: seq<Candidate>, dead: set<nat>, deadEnds: map<nat, int>, now: int)
    ensures forall c :: c in Eligible(candidates, dead, deadEnds, now)
              <==> c in candidates && IsEligible(c, dead, deadEnds, now)
  {
    if candidates != [] {
      EligibleAre(candidates[..|candidates| - 1], dead, deadEnds, now);
      assert candidates == candidates[..|candidates| - 1] + [candidates[|candidates| - 1]];
    }
  }

  /** The eligible candidates are the chain's, in the chain's order. */
  lemma {:induction false} EligibleInChainOrder(candidates: seq<Candidate>, dead: set<nat>, deadEnds: map<nat, int>, now: int)
    ensures IsFilter(Eligible(candidates, dead, deadEnds, now), candidates,
                     (c: Candidate) => c.provider !in dead && (c.provider in deadEnds ==> deadEnds[c.provider] <= now))
  {
    hide IsFilter;
    var keep := (c: Candidate) => c.provider !in dead && (c.provider in deadEnds ==> deadEnds[c.provider] <= now);
    if candidates == [] {
      NothingFiltered(keep);
    } else {
      var init, last := candidates[..|candidates| - 1], candidates[|candidates| - 1];
      EligibleInChainOrder(init, dead, deadEnds, now);
      FilterOneMore(Eligible(init, dead, deadEnds, now), init, last, keep);
      assert candidates == init + [last];
    }
  }

  predicate HasId(eligible: seq<Candidate>, id: nat) {
    exists c :: c in eligible && c.id == id
  }

  // ----- What one call does to the bindings -----

  predicate IsOldest(b: Bindings, k: Key) {
    k in b && forall o :: o in b ==> b[k].lastUsed <= b[o].lastUsed
  }

  /** Room for one more: at capacity some least-recently-used binding goes. */
  ghost predicate MadeRoom(b: Bindings, after: Bindings) {
    if |b| < CAPACITY then after == b else exists k :: IsOldest(b, k) && after == b - {k}
  }

  /** `i` is the first of the least-bound eligible candidates. */
  predicate IsLeastBound(b: Bindings, model: nat, eligible: seq<Candidate>, i: nat) {
    && i < |eligible|
    && (forall j :: 0 <= j < |eligible| ==>
          CountOf(b, CountKey(model, eligible[i].provider)) <= CountOf(b, CountKey(model, eligible[j].provider)))
    && (forall j :: 0 <= j < i ==>
          CountOf(b, CountKey(model, eligible[i].provider)) < CountOf(b, CountKey(model, eligible[j].provider)))
  }

  /** A fresh assignment: make room first, then choose against what is left. */
  ghost predicate Assigned(b: Bindings, key: Key, eligible: seq<Candidate>, now: int, after: Bindings, id: nat) {
    exists base: Bindings, i: nat ::
      && MadeRoom(b, base) && IsLeastBound(base, key.model, eligible, i)
      && id == eligible[i].id
      && after == base[key := Target(eligible[i].provider, eligible[i].id, now)]
  }

  /** One Route call against its eligible candidates. */
  ghost predicate Routed(b: Bindings, key: Key, eligible: seq<Candidate>, now: int, after: Bindings, id: nat) {
    if eligible == [] then id == 0 && after == b
    else if key in b && HasId(eligible, b[key].candidate) then
      id == b[key].candidate && after == b[key := b[key].(lastUsed := now)]
    else Assigned(b - {key}, key, eligible, now, after, id)
  }

  // ----- The registry -----

  class BindingRegistry {
    var bindings: Bindings
    var counts: map<CountKey, nat>
    var deadEndUntil: map<nat, int>

    ghost predicate Valid()
      reads this
    {
      Agrees(bindings, counts) && |bindings| <= CAPACITY
    }

    constructor ()
      ensures Valid() && bindings == map[] && deadEndUntil == map[]
    {
      bindings, counts, deadEndUntil := map[], map[], map[];
    }

    method Release(key: Key)
      requires Agrees(bindings, counts)
      modifies this`bindings, this`counts
      ensures Agrees(bindings, counts)
      ensures bindings == old(bindings) - {key}
    {
      if key !in bindings {
        return;
      }
      var target := bindings[key];
      ghost var before := bindings;
      bindings := bindings - {key};
      var ck := TargetKey(key, target);
      ghost var was := counts;
      if Recorded(counts, ck) <= 1 {
        counts := counts - {ck};
      } else {
        counts := counts[ck := counts[ck] - 1];
      }
      forall x
        ensures (x in counts <==> CountOf(bindings, x) > 0) && Recorded(counts, x) == CountOf(bindings, x)
      {
        CountWithout(before, key, x);
        assert (x in was <==> CountOf(before, x) > 0) && Recorded(was, x) == CountOf(before, x);
      }
    }

    /** The linear scan for the least-recently-used binding, in whatever order the map yields its keys. */
    method EvictIfNeeded()
      requires Agrees(bindings, counts) && |bindings| <= CAPACITY
      modifies this`bindings, this`counts
      ensures Agrees(bindings, counts)
      ensures MadeRoom(old(bindings), bindings)
      ensures |bindings| < CAPACITY
    {
      if |bindings| < CAPACITY {
        return;
      }
      var rest := bindings.Keys;
      assert |rest| == CAPACITY;
      var oldestKey :| oldestKey in rest;
      rest := rest - {oldestKey};
      while rest != {}
        invariant rest <= bindings.Keys && oldestKey in bindings
        invariant forall k :: k in bindings && k !in rest ==> bindings[oldestKey].lastUsed <= bindings[k].lastUsed
        decreases rest
      {
        var k :| k in rest;
        if bindings[k].lastUsed < bindings[oldestKey].lastUsed {
          oldestKey := k;
        }
        rest := rest - {k};
      }
      ghost var before := bindings;
      Release(oldestKey);
      assert IsOldest(before, oldestKey) && before.Keys == bindings.Keys + {oldestKey};
    }

    /** Put a binding in and count it. */
    method Bind(key: Key, target: Target)
      requires Valid() && key !in bindings && |bindings| < CAPACITY
      modifies this`bindings, this`counts
      ensures Valid()
      ensures bindings == old(bindings)[key := target]
    {
      ghost var before, was := bindings, counts;
      bindings := bindings[key := target];
      var ck := TargetKey(key, target);
      counts := counts[ck := Recorded(counts, ck) + 1];
      forall x
        ensures (x in counts <==> CountOf(bindings, x) > 0) && Recorded(counts, x) == CountOf(bindings, x)
      {
        CountWith(before, key, target, x);
        assert (x in was <==> CountOf(before, x) > 0) && Recorded(was, x) == CountOf(before, x);
      }
      assert bindings.Keys == before.Keys + {key};
    }

    /** Whether a provider is in its dead-end window, forgetting an expired one on the way. */
    method DeadEnd(provider: nat, now: int) returns (quarantined: bool)
      modifies this`deadEndUntil
      ensures quarantined == InWindow(old(deadEndUntil), provider, now)
      ensures deadEndUntil == if quarantined then old(deadEndUntil) else old(deadEndUntil) - {provider}
    {
      if provider !in deadEndUntil {
        return false;
      }
      if now < deadEndUntil[provider] {
        return true;
      }
      deadEndUntil := deadEndUntil - {provider};
      return false;
    }

    method CollectEligible(candidates: seq<Candidate>, dead: set<nat>, now: int) returns (eligible: seq<Candidate>)
      modifies this`deadEndUntil
      ensures eligible == Eligible(candidates, dead, old(deadEndUntil), now)
      ensures forall p :: InWindow(deadEndUntil, p, now) == InWindow(old(deadEndUntil), p, now)
      ensures forall p :: p in deadEndUntil ==> p in old(deadEndUntil) && deadEndUntil[p] == old(deadEndUntil)[p]
    {
      eligible := [];
      for i := 0 to |candidates|
        invariant eligible == Eligible(candidates[..i], dead, old(deadEndUntil), now)
        invariant forall p :: InWindow(deadEndUntil, p, now) == InWindow(old(deadEndUntil), p, now)
        invariant forall p :: p in deadEndUntil ==> p in old(deadEndUntil) && deadEndUntil[p] == old(deadEndUntil)[p]
      {
        assert candidates[..i + 1][..i] == candidates[..i];
        var c := candidates[i];
        if c.provider in dead {
          continue;
        }
        var quarantined := DeadEnd(c.provider, now);
        if quarantined {
          continue;
        }
        eligible := eligible + [c];
      }
      assert candidates[..|candidates|] == candidates;
    }

    /** The first least-bound eligible candidate. */
    method LeastBound(model: nat, eligible: seq<Candidate>) returns (best: nat)
      requires Agrees(bindings, counts) && eligible != []
      ensures IsLeastBound(bindings, model, eligible, best)
    {
      best := 0;
      var bestCount := Recorded(counts, CountKey(model, eligible[0].provider));
      for j := 1 to |eligible|
        invariant best < j
        invariant bestCount == CountOf(bindings, CountKey(model, eligible[best].provider))
        invariant forall i :: 0 <= i < j ==> bestCount <= CountOf(bindings, CountKey(model, eligible[i].provider))
        invariant forall i :: 0 <= i < best ==> bestCount < CountOf(bindings, CountKey(model, eligible[i].provider))
      {
        var count := Recorded(counts, CountKey(model, eligible[j].provider));
        assert count == CountOf(bindings, CountKey(model, eligible[j].provider));
        if count < bestCount {
          best, bestCount := j, count;
        }
      }
    }

    /**
     The candidate to start from, creating, refreshing or reassigning the caller's
     binding. The index keeps agreeing, the bound keeps holding, and what is
     returned is always an eligible candidate, or 0 when there is none.
     */
    method Route(apiKey: nat, model: nat, candidates: seq<Candidate>, dead: set<nat>, now: int) returns (id: nat)
      requires Valid()
      modifies this
      ensures Valid()
      ensures Routed(old(bindings), Key(apiKey, model), Eligible(candidates, dead, old(deadEndUntil), now), now, bindings, id)
      ensures forall p :: InWindow(deadEndUntil, p, now) == InWindow(old(deadEndUntil), p, now)
      ensures (forall c :: c in candidates ==> c.provider in dead || (c.provider in old(deadEndUntil) && now < old(deadEndUntil)[c.provider]))
              || exists c :: c in candidates && c.id == id && c.provider !in dead
                             && (c.provider in old(deadEndUntil) ==> old(deadEndUntil)[c.provider] <= now)
    {
      if |candidates| == 0 {
        return 0;
      }
      var eligible := CollectEligible(candidates, dead, now);
      EligibleAre(candidates, dead, old(deadEndUntil), now);
      if |eligible| == 0 {
        assert forall c :: c in candidates && IsEligible(c, dead, old(deadEndUntil), now) ==> c in eligible;
        return 0;
      }
      var key := Key(apiKey, model);
      if key in bindings && exists c :: c in eligible && c.id == bindings[key].candidate {
        ghost var before := bindings;
        bindings := bindings[key := bindings[key].(lastUsed := now)];
        assert bindings.Keys == before.Keys;
        forall x ensures CountOf(bindings, x) == CountOf(before, x) {
          CountTouched(before, key, now, x);
        }
        return bindings[key].candidate;
      }
      ghost var before := bindings;
      Release(key);
      assert |bindings| <= CAPACITY by {
        assert bindings.Keys <= before.Keys;
        SubsetIsSmaller(bindings.Keys, before.Keys);
      }
      EvictIfNeeded();
      ghost var base := bindings;
      var best := LeastBound(model, eligible);
      Bind(key, Target(eligible[best].provider, eligible[best].id, now));
      assert Assigned(before - {key}, key, eligible, now, bindings, eligible[best].id);
      assert eligible[best] in eligible;
      return eligible[best].id;
    }

    method Quarantine(provider: nat, now: int)
      modifies this`deadEndUntil
      ensures deadEndUntil == old(deadEndUntil)[provider := now + DEAD_END_COOLDOWN]
      ensures forall t :: InWindow(deadEndUntil, provider, t) <==> t < now + DEAD_END_COOLDOWN
      ensures forall p, t :: p != provider ==> InWindow(deadEndUntil, p, t) == InWindow(old(deadEndUntil), p, t)
    {
      deadEndUntil := deadEndUntil[provider := now + DEAD_END_COOLDOWN];
    }

    /**
     Record the provider that served a request whose binding was released on the
     way: a binding made meanwhile stands, unless it is the very dead end.
     */
    method Rebind(apiKey: nat, model: nat, provider: nat, candidate: nat, invalidated: nat, now: int)
      requires Valid()
      modifies this`bindings, this`counts
      ensures Valid()
      ensures var key := Key(apiKey, model);
              if key in old(bindings) && old(bindings)[key].candidate != invalidated then bindings == old(bindings)
              else exists base: Bindings :: MadeRoom(old(bindings) - {key}, base) && bindings == base[key := Target(provider, candidate, now)]
    {
      var key := Key(apiKey, model);
      ghost var before := bindings;
      if key in bindings {
        if bindings[key].candidate != invalidated {
          return;
        }
        Release(key);
        assert |bindings| <= CAPACITY by {
          assert bindings.Keys <= before.Keys;
          SubsetIsSmaller(bindings.Keys, before.Keys);
        }
      } else {
        assert bindings == before - {key};
      }
      EvictIfNeeded();
      Bind(key, Target(provider, candidate, now));
    }

    /** The admin snapshot for one model: every bound provider with its true count. */
    method BindingCounts(model: nat) returns (out: map<nat, nat>)
      requires Valid()
      ensures forall p :: p in out <==> CountOf(bindings, CountKey(model, p)) > 0
      ensures forall p :: p in out ==> out[p] == CountOf(bindings, CountKey(model, p))
    {
      out := map[];
      var rest := counts.Keys;
      while rest != {}
        invariant rest <= counts.Keys
        invariant forall p :: p in out <==> CountKey(model, p) in counts && CountKey(model, p) !in rest
        invariant forall p :: p in out ==> out[p] == counts[CountKey(model, p)]
        decreases rest
      {
        var k :| k in rest;
        if k.model == model {
          out := out[k.provider := counts[k]];
        }
        rest := rest - {k};
      }
    }
  }

  lemma SubsetIsSmaller<T>(a: set<T>, b: set<T>)
    requires a <= b
    ensures |a| <= |b|
  {
    assert b == a + (b - a);
  }

  // ----- Even spread -----

  /** Every binding is of this model and to one of these candidates. */
  predicate Within(b: Bindings, model: nat, eligible: set<Candidate>) {
    forall k :: k in b ==> k.model == model && Candidate(b[k].candidate, b[k].provider) in eligible
  }

  predicate Even(b: Bindings, model: nat, eligible: set<Candidate>) {
    forall c, d :: c in eligible && d in eligible ==>
      CountOf(b, CountKey(model, c.provider)) <= CountOf(b, CountKey(model, d.provider)) + 1
  }

  function AsSet(s: seq<Candidate>): set<Candidate> {
    set c | c in s
  }

  /**
   Evicting first, then choosing: the evicted provider is the one to get the
   newcomer, or had one to spare.
   */
  lemma PairStaysEven(b: Bindings, base: Bindings, model: nat, chain: seq<Candidate>, i: nat, c: Candidate, d: Candidate)
    requires Within(b, model, AsSet(chain)) && Even(b, model, AsSet(chain))
    requires MadeRoom(b, base) && IsLeastBound(base, model, chain, i) && c in chain && d in chain
    ensures (var best := CountKey(model, chain[i].provider);
             var ckC, ckD := CountKey(model, c.provider), CountKey(model, d.provider);
             CountOf(base, ckC) + (if ckC == best then 1 else 0) <= CountOf(base, ckD) + (if ckD == best then 1 else 0) + 1)
  {
    hide CountOf;
    var best := chain[i];
    var ckC, ckD, ckB := CountKey(model, c.provider), CountKey(model, d.provider), CountKey(model, best.provider);
    assert CountOf(base, ckB) <= CountOf(base, ckD);
    assert c in AsSet(chain) && d in AsSet(chain) && best in AsSet(chain);
    assert CountOf(b, ckC) <= CountOf(b, ckB) + 1 && CountOf(b, ckC) <= CountOf(b, ckD) + 1;
    if base != b {
      var k :| IsOldest(b, k) && base == b - {k};
      var gone := Candidate(b[k].candidate, b[k].provider);
      var ckG := CountKey(model, gone.provider);
      CountWithout(b, k, ckC);
      CountWithout(b, k, ckD);
      CountWithout(b, k, ckB);
      CountWithout(b, k, ckG);
      assert gone in AsSet(chain) && TargetKey(k, b[k]) == ckG;
      assert CountOf(base, ckB) <= CountOf(base, ckG);
      assert CountOf(b, ckC) <= CountOf(b, ckG) + 1;
    }
  }

  lemma AssignmentKeepsEven(b: Bindings, base: Bindings, key: Key, chain: seq<Candidate>, i: nat, now: int)
    requires key !in b && Within(b, key.model, AsSet(chain)) && Even(b, key.model, AsSet(chain))
    requires i < |chain| && MadeRoom(b, base) && IsLeastBound(base, key.model, chain, i)
    ensures Even(base[key := Target(chain[i].provider, chain[i].id, now)], key.model, AsSet(chain))
  {
    hide CountOf, IsLeastBound, MadeRoom, Within;
    var model, target := key.model, Target(chain[i].provider, chain[i].id, now);
    assert key !in base by {
      RoomOnlyShrinks(b, base);
    }
    forall c, d | c in AsSet(chain) && d in AsSet(chain)
      ensures CountOf(base[key := target], CountKey(model, c.provider))
              <= CountOf(base[key := target], CountKey(model, d.provider)) + 1
    {
      CountWith(base, key, target, CountKey(model, c.provider));
      CountWith(base, key, target, CountKey(model, d.provider));
      PairStaysEven(b, base, model, chain, i, c, d);
    }
  }

  lemma RoomOnlyShrinks(b: Bindings, base: Bindings)
    requires MadeRoom(b, base)
    ensures base.Keys <= b.Keys && forall k :: k in base ==> base[k] == b[k]
  {
    if |b| >= CAPACITY {
      var k :| IsOldest(b, k) && base == b - {k};
    }
  }

  lemma AssignmentStaysWithin(b: Bindings, base: Bindings, key: Key, chain: seq<Candidate>, i: nat, now: int)
    requires i < |chain| && Within(b, key.model, AsSet(chain)) && MadeRoom(b, base)
    ensures Within(base[key := Target(chain[i].provider, chain[i].id, now)], key.model, AsSet(chain))
  {
    RoomOnlyShrinks(b, base);
    assert Candidate(chain[i].id, chain[i].provider) == chain[i] && chain[i] in AsSet(chain);
  }

  /** A caller already bound keeps its provider, so no count moves. */
  lemma TouchKeepsEven(b: Bindings, key: Key, eligible: set<Candidate>, now: int)
    requires key in b && Within(b, key.model, eligible) && Even(b, key.model, eligible)
    ensures (var after := b[key := b[key].(lastUsed := now)];
             Within(after, key.model, eligible) && Even(after, key.model, eligible) && after.Keys == b.Keys)
  {
    hide CountOf;
    forall ck ensures CountOf(b[key := b[key].(lastUsed := now)], ck) == CountOf(b, ck) {
      CountTouched(b, key, now, ck);
    }
  }

  /** With the eligible set unchanged, a standing binding is always one the chain still holds. */
  lemma StandingIsSticky(b: Bindings, key: Key, chain: seq<Candidate>)
    requires Within(b, key.model, AsSet(chain))
    ensures key in b ==> HasId(chain, b[key].candidate)
  {
    if key in b {
      assert Candidate(b[key].candidate, b[key].provider) in AsSet(chain);
    }
  }

  lemma RouteKeepsEven(b: Bindings, key: Key, chain: seq<Candidate>, now: int, after: Bindings, id: nat)
    requires |b| <= CAPACITY && Within(b, key.model, AsSet(chain)) && Even(b, key.model, AsSet(chain))
    requires Routed(b, key, chain, now, after, id)
    ensures Within(after, key.model, AsSet(chain)) && Even(after, key.model, AsSet(chain)) && |after| <= CAPACITY
  {
    hide CountOf, Even, MadeRoom, Within;
    if chain == [] {
    } else if key in b && HasId(chain, b[key].candidate) {
      TouchKeepsEven(b, key, AsSet(chain), now);
      assert |after| == |after.Keys| && |b| == |b.Keys|;
    } else {
      StandingIsSticky(b, key, chain);
      assert b - {key} == b;
      var base: Bindings, i: nat :| MadeRoom(b, base) && IsLeastBound(base, key.model, chain, i)
        && id == chain[i].id && after == base[key := Target(chain[i].provider, chain[i].id, now)];
      FreshKeepsEven(b, base, key, chain, i, now);
    }
  }

  lemma FreshKeepsEven(b: Bindings, base: Bindings, key: Key, chain: seq<Candidate>, i: nat, now: int)
    requires |b| <= CAPACITY && key !in b && Within(b, key.model, AsSet(chain)) && Even(b, key.model, AsSet(chain))
    requires i < |chain| && MadeRoom(b, base) && IsLeastBound(base, key.model, chain, i)
    ensures (var after := base[key := Target(chain[i].provider, chain[i].id, now)];
             Within(after, key.model, AsSet(chain)) && Even(after, key.model, AsSet(chain)) && |after| <= CAPACITY)
  {
    hide Even, Within, MadeRoom, IsLeastBound, AsSet;
    AssignmentKeepsEven(b, base, key, chain, i, now);
    AssignmentStaysWithin(b, base, key, chain, i, now);
    RoomForOne(b, base);
    assert base[key := Target(chain[i].provider, chain[i].id, now)].Keys == base.Keys + {key};
  }

  lemma RoomForOne(b: Bindings, base: Bindings)
    requires |b| <= CAPACITY && MadeRoom(b, base)
    ensures |base| < CAPACITY
  {
    if |b| >= CAPACITY {
      var k :| IsOldest(b, k) && base == b - {k};
      assert b.Keys == base.Keys + {k};
    }
  }

  /** One call of a run: who asks, with which chain of eligible candidates, when. */
  datatype Call = Call(apiKey: nat, chain: seq<Candidate>, now: int, id: nat)

  /** `states` is a run of Route calls for one model from the empty registry, the eligible set never changing. */
  ghost predicate IsSpreadRun(model: nat, eligible: set<Candidate>, calls: seq<Call>, states: seq<Bindings>) {
    && |states| == |calls| + 1 && states[0] == map[]
    && forall i :: 0 <= i < |calls| ==>
         && AsSet(calls[i].chain) == eligible
         && Routed(states[i], Key(calls[i].apiKey, model), calls[i].chain, calls[i].now, states[i + 1], calls[i].id)
  }

  /**
   Over any such run, after every call, no eligible provider holds more than one
   binding over any other, whoever asks, however often, and with an eviction on
   every call once the registry is full.
   */
  lemma {:induction false} SpreadStaysEven(model: nat, eligible: set<Candidate>, calls: seq<Call>, states: seq<Bindings>, n: nat)
    requires IsSpreadRun(model, eligible, calls, states) && n < |states|
    ensures |states[n]| <= CAPACITY && Within(states[n], model, eligible) && Even(states[n], model, eligible)
  {
    if n > 0 {
      SpreadStaysEven(model, eligible, calls, states, n - 1);
      var call := calls[n - 1];
      RouteKeepsEven(states[n - 1], Key(call.apiKey, model), call.chain, call.now, states[n], call.id);
    } else {
      forall ck ensures CountOf(states[0], ck) == 0 {
        assert BoundTo(states[0], ck) == {};
      }
    }
  }
}
