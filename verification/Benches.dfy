/**
 What a bench does to a key while it stands: who is walked as healthy, which records
 a walk changes, and that a rate-limited key waits out its window unless a verdict
 on it says otherwise.
 */
module Benches {
  import opened Wrappers
  import opened KeyPool
  import opened KeyVerdicts
  import opened WalkOrders

  // ----- What a walk leaves standing -----

  /** The walked key finds its bench expired, or earned by an older generation than its own. */
  predicate FindsOutdated(states: States, k: ProviderKey, now: nat) {
    && k.id in states && states[k.id].benchUntil != 0
    && (states[k.id].cfg < k.cfg || (states[k.id].cfg == k.cfg && states[k.id].benchUntil <= now))
  }

  /** The bench stands against this key now: it is of the key's own generation and ends later. */
  predicate StandsAgainst(states: States, k: ProviderKey, now: nat) {
    k.id in states && states[k.id].cfg == k.cfg && states[k.id].benchUntil > now
  }

  lemma {:induction false} SweptRecord(states: States, keys: seq<ProviderKey>, now: nat, i: nat)
    requires DistinctIds(keys) && i < |keys|
    ensures Lookup(Sweep(states, keys, now), keys[i].id)
         == if FindsOutdated(states, keys[i], now)
            then Some(states[keys[i].id].(benchUntil := 0, benchInstalled := 0)) else Lookup(states, keys[i].id)
    decreases |keys|
  {
    var n := |keys| - 1;
    if i < n {
      SweptRecord(states, keys[..n], now, i);
    } else {
      SweepLeavesOthers(states, keys[..n], now, keys[n].id);
    }
  }

  /** A walk changes a record exactly when it passes its key and finds the bench outdated; then it wipes the bench and nothing else. */
  lemma RecordChangesExactlyWhen(states: States, keys: seq<ProviderKey>, now: nat, id: nat)
    requires DistinctIds(keys)
    ensures (var after := Lookup(Swept(states, keys, now), id);
             && (after != Lookup(states, id) <==> |keys| >= 2 && exists k :: k in keys && k.id == id && FindsOutdated(states, k, now))
             && (after != Lookup(states, id) ==> after == Some(states[id].(benchUntil := 0, benchInstalled := 0))))
  {
    hide Sweep;
    if |keys| >= 2 {
      if i :| 0 <= i < |keys| && keys[i].id == id {
        SweptRecord(states, keys, now, i);
        assert keys[i] in keys;
        assert forall k :: k in keys && k.id == id ==> k == keys[i];
      } else {
        SweepLeavesOthers(states, keys, now, id);
      }
    }
  }

  /** Walking past a key whose bench stands against it leaves its record as it was. */
  lemma CoolingKeyIsLeftAlone(states: States, keys: seq<ProviderKey>, now: nat, k: ProviderKey)
    requires DistinctIds(keys) && k in keys && StandsAgainst(states, k, now)
    ensures Lookup(Swept(states, keys, now), k.id) == Lookup(states, k.id)
  {
    hide Swept;
    RecordChangesExactlyWhen(states, keys, now, k.id);
    assert forall j :: j in keys && j.id == k.id ==> j == k;
  }

  lemma {:induction false} ReadyMembers(states: States, keys: seq<ProviderKey>, now: nat, k: ProviderKey)
    requires DistinctIds(keys)
    ensures k in Ready(states, keys, now) <==> k in keys && !StandsAgainst(states, k, now)
    decreases |keys|
  {
    if keys != [] {
      var n := |keys| - 1;
      ReadyMembers(states, keys[..n], now, k);
      SweepLeavesOthers(states, keys[..n], now, keys[n].id);
      assert keys == keys[..n] + [keys[n]];
      assert forall i :: 0 <= i < n ==> keys[..n][i] == keys[i];
    }
  }

  /** A key is walked as healthy, before all the others, exactly when no bench stands against it. */
  lemma HealthyExactlyWhen(states: States, cursor: nat, keys: seq<ProviderKey>, now: nat, i: nat, j: nat)
    requires DistinctIds(keys) && |keys| >= 2
    requires i < |Walk(states, cursor, keys, now)| && j < |Walk(states, cursor, keys, now)|
    ensures (var walk := Walk(states, cursor, keys, now);
             StandsAgainst(states, walk[i], now) && !StandsAgainst(states, walk[j], now) ==> j < i)
    ensures forall k :: k in Ready(states, keys, now) <==> k in keys && !StandsAgainst(states, k, now)
  {
    hide Walk, Ready;
    HealthyWalkFirst(states, cursor, keys, now);
    forall k ensures k in Ready(states, keys, now) <==> k in keys && !StandsAgainst(states, k, now) {
      ReadyMembers(states, keys, now, k);
    }
  }

  // ----- A bench holds until a verdict on its key says otherwise -----

  /** A verdict that neither releases nor replaces the bench of record `s`. */
  predicate LeavesBench(s: KeyState, v: Verdict) {
    || v.cfg < s.cfg
    || ((v.Limited? || v.Lengthened?) && v.window <= 0)
    || (v.cfg == s.cfg
        && match v
           case Limited(_, at, _) => at <= s.limitedAt
           case Lengthened(_, _, _) => true
           case Invalidated(_, at) => at < s.limitedAt
           case Succeeded(_, at) => at <= s.benchInstalled)
  }

  /** Something of a run that leaves the bench of record `s` of `key` standing until `until`. */
  predicate LeavesStanding(s: KeyState, key: nat, until: nat, e: Event) {
    match e
    case Verdicts(k, v, _) => k == key ==> LeavesBench(s, v)
    case Walks(keys, now) => DistinctIds(keys) && now < until && forall k :: k in keys && k.id == key ==> k.cfg <= s.cfg
  }

  /** The bench of `s`, or one of the same booking that ends later. */
  predicate StillBenched(s: KeyState, states: States, key: nat) {
    && key in states && states[key].cfg == s.cfg
    && states[key].benchUntil >= s.benchUntil
    && states[key].benchInstalled == s.benchInstalled && states[key].limitedAt == s.limitedAt
  }

  lemma VerdictLeavesBench(s: KeyState, states: States, key: nat, v: Verdict, now: nat)
    requires s.Benched() && StillBenched(s, states, key) && LeavesBench(s, v)
    ensures StillBenched(s, Judged(states, key, v, now), key)
  {
  }

  lemma EventLeavesBench(s: KeyState, states: States, key: nat, e: Event)
    requires s.Benched() && StillBenched(s, states, key) && LeavesStanding(s, key, s.benchUntil, e)
    ensures StillBenched(s, Happens(states, e), key)
  {
    hide Swept, Judge;
    match e
    case Verdicts(k, v, now) =>
      if k == key {
        VerdictLeavesBench(s, states, key, v, now);
      }
    case Walks(keys, now) =>
      RecordChangesExactlyWhen(states, keys, now, key);
  }

  lemma {:induction false} RunLeavesBench(s: KeyState, states: States, key: nat, events: seq<Event>)
    requires s.Benched() && StillBenched(s, states, key)
    requires forall e :: e in events ==> LeavesStanding(s, key, s.benchUntil, e)
    ensures StillBenched(s, Run(states, events), key)
    decreases |events|
  {
    hide Happens, LeavesStanding, StillBenched;
    if events != [] {
      assert events[0] in events && forall e :: e in events[1..] ==> e in events;
      EventLeavesBench(s, states, key, events[0]);
      RunLeavesBench(s, Happens(states, events[0]), key, events[1..]);
    }
  }

  /** Dispatched after everything the record knows of its generation, or the first word of a newer one. */
  predicate IsNews(states: States, key: nat, cfg: int, at: nat) {
    at > 0
    && (key in states ==>
          || cfg > states[key].cfg
          || (cfg == states[key].cfg
              && at > states[key].limitedAt && at > states[key].invalidatedAt && at > states[key].recoveredAt))
  }

  /**
   A 429 dispatched after everything known of its key keeps the key waiting for its
   whole window, through any walks and any verdicts on other keys, until a later
   429, an invalidation dispatched no earlier, a success dispatched after the
   booking, or a newer generation speaks of the key itself.
   */
  lemma RateLimitedKeyWaits(states: States, key: nat, cfg: int, at: nat, window: int, booked: nat,
                            events: seq<Event>, keys: seq<ProviderKey>, now: nat)
    requires window > 0 && IsNews(states, key, cfg, at)
    requires (var first := Judged(states, key, Limited(cfg, at, window), booked);
              key in first && forall e :: e in events ==> LeavesStanding(first[key], key, booked + window, e))
    requires DistinctIds(keys) && |keys| >= 2 && ProviderKey(key, cfg) in keys && now < booked + window
    ensures (var end := Run(Judged(states, key, Limited(cfg, at, window), booked), events);
             && StandsAgainst(end, ProviderKey(key, cfg), now)
             && ProviderKey(key, cfg) !in Ready(end, keys, now)
             && Lookup(Swept(end, keys, now), key) == Lookup(end, key))
  {
    hide Run, LeavesStanding, Ready, Swept;
    var first := Judged(states, key, Limited(cfg, at, window), booked);
    assert first[key].benchUntil == booked + window && first[key].cfg == cfg;
    RunLeavesBench(first[key], first, key, events);
    var end := Run(first, events);
    ReadyMembers(end, keys, now, ProviderKey(key, cfg));
    CoolingKeyIsLeftAlone(end, keys, now, ProviderKey(key, cfg));
  }

  /** What ends a bench early: a success dispatched after its booking, an invalidation no older than its 429, a newer generation. */
  lemma BenchEndsEarlyExactlyWhen(s: KeyState, v: Verdict, now: nat)
    requires s.Benched() && Heard(v)
    ensures !Judge(Some(s), v, now).value.Benched()
       <==> || (v.cfg == s.cfg && v.Succeeded? && v.at > s.benchInstalled)
            || (v.cfg == s.cfg && v.Invalidated? && v.at >= s.limitedAt)
            || (v.cfg > s.cfg && !(v.Limited? && v.at > 0))
  {
  }

  /** Body evidence moves a bench exactly when the bench stands, nothing has spoken since, and it would end later. */
  lemma EvidenceLengthensExactlyWhen(s: KeyState, at: nat, window: int, now: nat)
    requires window > 0
    ensures Judge(Some(s), Lengthened(s.cfg, at, window), now) != Some(s)
       <==> && s.benchUntil != 0 && now + window > s.benchUntil
            && at > s.invalidatedAt && at > s.recoveredAt && at >= s.limitedAt
    ensures Judge(Some(s), Lengthened(s.cfg, at, window), now) != Some(s) ==>
              Judge(Some(s), Lengthened(s.cfg, at, window), now) == Some(s.(benchUntil := now + window))
  {
  }
}
