/**
 Why bindings are sticky: a caller whose candidate stays eligible keeps it, whatever
 other callers do, until nearly a whole registry of them has come by since.
 */
module Sticky {
  import opened Binding

  /** What may happen to the registry: a Route call with its eligible candidates and its answer, or a release. */
  datatype Deed = Routes(key: Key, chain: seq<Candidate>, now: int, id: nat) | Releases(key: Key)

  ghost predicate Does(b: Bindings, d: Deed, after: Bindings) {
    match d
    case Routes(key, chain, now, id) => Routed(b, key, chain, now, after, id)
    case Releases(key) => after == b - {key}
  }

  ghost predicate IsRun(states: seq<Bindings>, deeds: seq<Deed>) {
    |states| == |deeds| + 1 && forall i :: 0 <= i < |deeds| ==> Does(states[i], deeds[i], states[i + 1])
  }

  /** The callers whose binding was used later than `k`'s. */
  function Newer(b: Bindings, k: Key): set<Key>
    requires k in b
  {
    set o | o in b && b[o].lastUsed > b[k].lastUsed
  }

  /** `k` holds `target`, nobody else was bound at the very same moment, and at most `n` callers since. */
  predicate Holds(b: Bindings, k: Key, target: Target, n: nat) {
    && |b| <= CAPACITY && k in b && b[k] == target
    && (forall o :: o in b && o != k ==> b[o].lastUsed != target.lastUsed)
    && |Newer(b, k)| <= n
  }

  lemma SmallerSet<T>(a: set<T>, b: set<T>)
    requires a <= b
    ensures |a| <= |b|
  {
    SubsetIsSmaller(a, b);
  }

  lemma RemovalKeeps(b: Bindings, k: Key, target: Target, n: nat, gone: Key)
    requires Holds(b, k, target, n) && gone != k
    ensures Holds(b - {gone}, k, target, n)
  {
    SmallerSet((b - {gone}).Keys, b.Keys);
    SmallerSet(Newer(b - {gone}, k), Newer(b, k));
  }

  lemma UseKeeps(b: Bindings, k: Key, target: Target, n: nat, key: Key, used: Target)
    requires Holds(b, k, target, n) && key != k && used.lastUsed > target.lastUsed
    requires |b[key := used]| <= CAPACITY
    ensures Holds(b[key := used], k, target, n + 1)
  {
    var after := b[key := used];
    assert Newer(after, k) <= Newer(b, k) + {key};
    SmallerSet(Newer(after, k), Newer(b, k) + {key});
  }

  /** With fewer callers since than a full registry holds besides, the oldest binding is not `k`'s. */
  lemma EvictionPassesBy(b: Bindings, k: Key, target: Target, n: nat, oldest: Key)
    requires Holds(b, k, target, n) && n < CAPACITY - 1 && |b| >= CAPACITY && IsOldest(b, oldest)
    ensures oldest != k
  {
    var recent := Newer(b, k) + {k};
    assert |b.Keys| == |b|;
    if b.Keys <= recent {
      SmallerSet(b.Keys, recent);
      assert false;
    }
    var o :| o in b.Keys && o !in recent;
    assert b[o].lastUsed < b[k].lastUsed;
  }

  lemma FreeFits(b: Bindings, key: Key)
    requires |b| <= CAPACITY
    ensures |b - {key}| <= CAPACITY
  {
    SmallerSet((b - {key}).Keys, b.Keys);
    assert |b - {key}| == |(b - {key}).Keys| && |b| == |b.Keys|;
  }

  lemma OneMoreFits(b: Bindings, key: Key, used: Target)
    requires |b| < CAPACITY
    ensures |b[key := used]| <= CAPACITY
  {
    assert b[key := used].Keys == b.Keys + {key};
    assert |b[key := used]| == |b[key := used].Keys| && |b| == |b.Keys|;
  }

  lemma AssignedIs(free: Bindings, key: Key, chain: seq<Candidate>, now: int, after: Bindings, id: nat)
    returns (base: Bindings, used: Target)
    requires |free| <= CAPACITY && Assigned(free, key, chain, now, after, id)
    ensures MadeRoom(free, base) && |base| < CAPACITY && after == base[key := used]
    ensures used.lastUsed == now && used.candidate == id
  {
    hide CountOf;
    var i: nat;
    base, i :| MadeRoom(free, base) && IsLeastBound(base, key.model, chain, i)
      && id == chain[i].id && after == base[key := Target(chain[i].provider, chain[i].id, now)];
    used := Target(chain[i].provider, chain[i].id, now);
    RoomForOne(free, base);
  }

  lemma OthersCallKeeps(b: Bindings, k: Key, target: Target, n: nat, d: Deed, after: Bindings)
    requires Holds(b, k, target, n) && n < CAPACITY - 1 && d.key != k && Does(b, d, after)
    requires d.Routes? ==> d.now > target.lastUsed
    ensures Holds(after, k, target, n + 1)
  {
    hide CountOf, Holds, MadeRoom, Assigned;
    if d.Releases? {
      RemovalKeeps(b, k, target, n, d.key);
      HoldsLonger(after, k, target, n);
    } else if d.chain == [] {
      HoldsLonger(b, k, target, n);
    } else if d.key in b && HasId(d.chain, b[d.key].candidate) {
      assert b[d.key := b[d.key].(lastUsed := d.now)].Keys == b.Keys;
      assert |b| <= CAPACITY by { HoldsFits(b, k, target, n); }
      assert |b[d.key := b[d.key].(lastUsed := d.now)]| == |b[d.key := b[d.key].(lastUsed := d.now)].Keys|;
      UseKeeps(b, k, target, n, d.key, b[d.key].(lastUsed := d.now));
    } else {
      var free := b - {d.key};
      RemovalKeeps(b, k, target, n, d.key);
      assert |free| <= CAPACITY by { HoldsFits(free, k, target, n); }
      var base, used := AssignedIs(free, d.key, d.chain, d.now, after, d.id);
      RoomKeeps(free, k, target, n, base);
      OneMoreFits(base, d.key, used);
      UseKeeps(base, k, target, n, d.key, used);
    }
  }

  lemma HoldsFits(b: Bindings, k: Key, target: Target, n: nat)
    requires Holds(b, k, target, n)
    ensures |b| <= CAPACITY
  {
  }

  lemma HoldsLonger(b: Bindings, k: Key, target: Target, n: nat)
    requires Holds(b, k, target, n)
    ensures Holds(b, k, target, n + 1)
  {
  }

  lemma RoomKeeps(b: Bindings, k: Key, target: Target, n: nat, base: Bindings)
    requires Holds(b, k, target, n) && n < CAPACITY - 1 && MadeRoom(b, base)
    ensures Holds(base, k, target, n) && |base| < CAPACITY
  {
    hide Holds;
    HoldsFits(b, k, target, n);
    RoomForOne(b, base);
    if |b| >= CAPACITY {
      var oldest :| IsOldest(b, oldest) && base == b - {oldest};
      EvictionPassesBy(b, k, target, n, oldest);
      RemovalKeeps(b, k, target, n, oldest);
    }
  }

  lemma {:induction false} RecentCallerStaysBound(states: seq<Bindings>, deeds: seq<Deed>, k: Key, target: Target, n: nat)
    requires IsRun(states, deeds) && n < |states| && |deeds| < CAPACITY && Holds(states[0], k, target, 0)
    requires forall i :: 0 <= i < |deeds| ==> deeds[i].key != k && (deeds[i].Routes? ==> deeds[i].now > target.lastUsed)
    ensures Holds(states[n], k, target, n)
  {
    hide Holds, Does;
    if n > 0 {
      RecentCallerStaysBound(states, deeds, k, target, n - 1);
      OthersCallKeeps(states[n - 1], k, target, n - 1, deeds[n - 1], states[n]);
    }
  }

  lemma CallBinds(b: Bindings, key: Key, chain: seq<Candidate>, now: int, after: Bindings, id: nat)
    requires |b| <= CAPACITY && chain != [] && Routed(b, key, chain, now, after, id)
    requires forall o :: o in b ==> b[o].lastUsed < now
    ensures key in after && after[key].candidate == id && Holds(after, key, after[key], 0)
  {
    hide CountOf, Holds, MadeRoom, Assigned;
    if key in b && HasId(chain, b[key].candidate) {
      LatestHolds(b, key, b[key].(lastUsed := now));
    } else {
      var free := b - {key};
      FreeFits(b, key);
      var base, target := AssignedIs(free, key, chain, now, after, id);
      RoomOnlyShrinks(free, base);
      LatestHolds(base, key, target);
    }
  }

  lemma LatestHolds(b: Bindings, key: Key, used: Target)
    requires |b| < CAPACITY || (key in b && |b| <= CAPACITY)
    requires forall o :: o in b ==> b[o].lastUsed < used.lastUsed
    ensures Holds(b[key := used], key, used, 0)
  {
    var after := b[key := used];
    assert after.Keys == b.Keys + {key};
    assert |after| == |after.Keys| && |b| == |b.Keys|;
    assert key in b ==> after.Keys == b.Keys;
    assert Newer(after, key) == {};
  }

  /**
   A caller that comes back finds the candidate it was given, as long as that one is
   still eligible and fewer than a whole registry of later calls and releases, all
   of other callers, lie between.
   */
  lemma CallerKeepsItsCandidate(b: Bindings, k: Key, chain: seq<Candidate>, now: int, id: nat,
                                states: seq<Bindings>, deeds: seq<Deed>,
                                laterChain: seq<Candidate>, later: int, after: Bindings, laterId: nat)
    requires |b| <= CAPACITY && chain != [] && (forall o :: o in b ==> b[o].lastUsed < now)
    requires IsRun(states, deeds) && |deeds| < CAPACITY && Routed(b, k, chain, now, states[0], id)
    requires forall i :: 0 <= i < |deeds| ==> deeds[i].key != k && (deeds[i].Routes? ==> deeds[i].now > now)
    requires HasId(laterChain, id) && Routed(states[|deeds|], k, laterChain, later, after, laterId)
    ensures laterId == id
  {
    hide Holds, MadeRoom, IsLeastBound;
    CallBinds(b, k, chain, now, states[0], id);
    assert states[0][k].lastUsed == now by { CallStamps(b, k, chain, now, states[0], id); }
    RecentCallerStaysBound(states, deeds, k, states[0][k], |deeds|);
    HoldsItself(states[|deeds|], k, states[0][k], |deeds|);
    assert laterChain != [];
  }

  lemma HoldsItself(b: Bindings, k: Key, target: Target, n: nat)
    requires Holds(b, k, target, n)
    ensures k in b && b[k] == target
  {
  }

  lemma CallStamps(b: Bindings, key: Key, chain: seq<Candidate>, now: int, after: Bindings, id: nat)
    requires chain != [] && Routed(b, key, chain, now, after, id)
    ensures key in after && after[key].lastUsed == now
  {
    hide CountOf;
  }

  /** With nobody bound yet, a caller gets the first of its candidates. */
  lemma FirstCallerGetsTheFirst(key: Key, chain: seq<Candidate>, now: int, after: Bindings, id: nat)
    requires chain != [] && Routed(map[], key, chain, now, after, id)
    ensures id == chain[0].id
  {
    hide CountOf;
    var none: Bindings := map[];
    assert none - {key} == none && |none| == 0;
    var base: Bindings, i: nat :| MadeRoom(none, base) && IsLeastBound(base, key.model, chain, i)
      && id == chain[i].id && after == base[key := Target(chain[i].provider, chain[i].id, now)];
    forall ck ensures CountOf(base, ck) == 0 {
      NobodyBound(ck);
    }
  }

  lemma NobodyBound(ck: CountKey)
    ensures CountOf(map[], ck) == 0
  {
    assert BoundTo(map[], ck) == {};
  }
}
