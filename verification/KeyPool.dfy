/**
 The key pool (internal/gateway/keypool.go): per provider a rotation cursor, per
 key a rate-limit bench fed by verdicts that arrive in any order. Times are
 numbers, 0 being the zero time; the pool's clock is a parameter of each call.
 */
module KeyPool {
  import opened Wrappers

  const CURSOR_SPAN: nat := 0x1_0000_0000_0000_0000

  datatype ProviderKey = ProviderKey(id: nat, cfg: int)

  datatype KeyState = KeyState(cfg: int, benchUntil: nat, benchInstalled: nat, limitedAt: nat, invalidatedAt: nat,
                               recoveredAt: nat) {
    predicate Benched() {
      benchUntil != 0
    }

    function DropBench(): KeyState {
      this.(benchUntil := 0, benchInstalled := 0)
    }

    /** A 429 dispatched no later than this is refused. */
    function Threshold(): nat {
      Max(Max(invalidatedAt, recoveredAt), limitedAt)
    }
  }

  type States = map<nat, KeyState>

  function Lookup(states: States, key: nat): Option<KeyState> {
    if key in states then Some(states[key]) else None
  }

  // ----- Verdicts -----

  datatype Verdict =
    | Limited(cfg: int, at: nat, window: int)
    | Lengthened(cfg: int, at: nat, window: int)
    | Invalidated(cfg: int, at: nat)
    | Succeeded(cfg: int, at: nat)

  /** A window of zero or less is ignored before the record is even looked up. */
  predicate Heard(v: Verdict) {
    (v.Limited? || v.Lengthened?) ==> v.window > 0
  }

  function Fresh(cfg: int): KeyState {
    KeyState(cfg, 0, 0, 0, 0, 0)
  }

  /** The record a verdict of generation `cfg` speaks to; None when the verdict's generation is superseded. */
  function Positioned(record: Option<KeyState>, cfg: int): Option<KeyState> {
    match record
    case None => Some(Fresh(cfg))
    case Some(s) => if cfg < s.cfg then None else if cfg > s.cfg then Some(Fresh(cfg)) else Some(s)
  }

  function Amend(s: KeyState, v: Verdict, now: nat): KeyState {
    match v
    case Limited(_, at, window) =>
      if window > 0 && at > s.Threshold() then s.(benchUntil := now + window, benchInstalled := now, limitedAt := at) else s
    case Lengthened(_, at, window) =>
      if window > 0 && s.Benched() && at > s.invalidatedAt && at > s.recoveredAt && at >= s.limitedAt
      then s.(benchUntil := Max(s.benchUntil, now + window)) else s
    case Invalidated(_, at) =>
      var marked := s.(invalidatedAt := Max(s.invalidatedAt, at));
      if marked.Benched() && marked.limitedAt <= at then marked.DropBench() else marked
    case Succeeded(_, at) =>
      var marked := s.(recoveredAt := Max(s.recoveredAt, at));
      if marked.Benched() && at > marked.benchInstalled then marked.DropBench() else marked
  }

  function Judge(record: Option<KeyState>, v: Verdict, now: nat): Option<KeyState> {
    if !Heard(v) then record
    else match Positioned(record, v.cfg)
      case None => record
      case Some(s) => Some(Amend(s, v, now))
  }

  function Judged(states: States, key: nat, v: Verdict, now: nat): States {
    match Judge(Lookup(states, key), v, now)
    case None => states
    case Some(s) => states[key := s]
  }

  // ----- Walking -----

  /** The bench standing against this walk's key: same generation, not expired. */
  predicate Cooling(states: States, k: ProviderKey, now: nat) {
    k.id in states && states[k.id].cfg == k.cfg && states[k.id].benchUntil > now
  }

  /** What walking past a key prunes: an expired bench, or one an older generation earned. */
  function Pruned(states: States, k: ProviderKey, now: nat): States {
    if k.id in states && states[k.id].Benched()
       && (states[k.id].cfg < k.cfg || (states[k.id].cfg == k.cfg && states[k.id].benchUntil <= now))
    then states[k.id := states[k.id].DropBench()] else states
  }

  function Sweep(states: States, keys: seq<ProviderKey>, now: nat): States {
    if keys == [] then states
    else Pruned(Sweep(states, keys[..|keys| - 1], now), keys[|keys| - 1], now)
  }

  function Swept(states: States, keys: seq<ProviderKey>, now: nat): States {
    if |keys| < 2 then states else Sweep(states, keys, now)
  }

  datatype Waiting = Waiting(key: ProviderKey, expiry: nat)

  /** The keys walked as healthy, each judged in the state the walk has reached. */
  function Ready(states: States, keys: seq<ProviderKey>, now: nat): (r: seq<ProviderKey>)
  {
    if keys == [] then []
    else
      var n := |keys| - 1;
      Ready(states, keys[..n], now) + if Cooling(Sweep(states, keys[..n], now), keys[n], now) then [] else [keys[n]]
  }

  function Tail(states: States, keys: seq<ProviderKey>, now: nat): seq<Waiting> {
    if keys == [] then []
    else
      var n := |keys| - 1;
      var at := Sweep(states, keys[..n], now);
      Tail(states, keys[..n], now) + if Cooling(at, keys[n], now) then [Waiting(keys[n], at[keys[n].id].benchUntil)] else []
  }

  /** Put a newcomer behind everyone who recovers no later. */
  function Slot(line: seq<Waiting>, w: Waiting): seq<Waiting> {
    if line == [] || line[|line| - 1].expiry <= w.expiry then line + [w]
    else Slot(line[..|line| - 1], w) + [line[|line| - 1]]
  }

  /** The stable sort by expiry. */
  function BySoonest(line: seq<Waiting>): seq<Waiting> {
    if line == [] then [] else Slot(BySoonest(line[..|line| - 1]), line[|line| - 1])
  }

  function KeysOf(line: seq<Waiting>): seq<ProviderKey> {
    seq(|line|, i requires 0 <= i < |line| => line[i].key)
  }

  function Rotated<T>(s: seq<T>, cursor: nat): seq<T> {
    if s == [] then [] else s[cursor % |s|..] + s[..cursor % |s|]
  }

  function Walk(states: States, cursor: nat, keys: seq<ProviderKey>, now: nat): seq<ProviderKey> {
    if |keys| < 2 then keys
    else Rotated(Ready(states, keys, now), cursor) + KeysOf(BySoonest(Tail(states, keys, now)))
  }

  // ----- The pool -----

  class Pool {
    var cursors: map<nat, nat>
    var states: States

    constructor ()
      ensures cursors == map[] && states == map[]
    {
      cursors, states := map[], map[];
    }

    function Cursor(provider: nat): nat
      reads this
    {
      if provider in cursors then cursors[provider] else 0
    }

    /** Position a key's record at a generation; false for a verdict of an older one, which finds nothing to speak to. */
    method StateFor(key: nat, cfg: int) returns (current: bool)
      modifies this`states
      ensures current <==> Positioned(Lookup(old(states), key), cfg).Some?
      ensures current ==> states == old(states)[key := Positioned(Lookup(old(states), key), cfg).value]
      ensures !current ==> states == old(states)
    {
      if key !in states {
        states := states[key := Fresh(cfg)];
        return true;
      }
      if cfg < states[key].cfg {
        return false;
      }
      if cfg > states[key].cfg {
        states := states[key := Fresh(cfg)];
      } else {
        assert states == states[key := states[key]];
      }
      return true;
    }

    /** Bench a key for a 429 dispatched at `at`. */
    method CoolKey(key: nat, cfg: int, at: nat, window: int, now: nat)
      modifies this`states
      ensures states == Judged(old(states), key, Limited(cfg, at, window), now)
    {
      if window <= 0 {
        RewriteIsIdle(states, key);
        return;
      }
      var current := StateFor(key, cfg);
      if !current {
        RewriteIsIdle(states, key);
        return;
      }
      var s := states[key];
      if at <= s.invalidatedAt || at <= s.recoveredAt || at <= s.limitedAt {
        return;
      }
      states := states[key := s.(benchUntil := now + window, benchInstalled := now, limitedAt := at)];
    }

    /** Extend a standing bench on later evidence from the verdict that booked it. */
    method LengthenKeyBench(key: nat, cfg: int, at: nat, window: int, now: nat)
      modifies this`states
      ensures states == Judged(old(states), key, Lengthened(cfg, at, window), now)
    {
      if window <= 0 {
        RewriteIsIdle(states, key);
        return;
      }
      var current := StateFor(key, cfg);
      if !current {
        RewriteIsIdle(states, key);
        return;
      }
      var s := states[key];
      if !s.Benched() || at <= s.invalidatedAt || at <= s.recoveredAt || at < s.limitedAt {
        return;
      }
      var until := now + window;
      if until > s.benchUntil {
        states := states[key := s.(benchUntil := until)];
      }
    }

    /** Book a persistent invalidation seen at `at`. */
    method DropKey(key: nat, cfg: int, at: nat, now: nat)
      modifies this`states
      ensures states == Judged(old(states), key, Invalidated(cfg, at), now)
    {
      var current := StateFor(key, cfg);
      if !current {
        RewriteIsIdle(states, key);
        return;
      }
      if at > states[key].invalidatedAt {
        states := states[key := states[key].(invalidatedAt := at)];
      }
      if states[key].Benched() && states[key].limitedAt <= at {
        states := states[key := states[key].DropBench()];
      }
    }

    /** Release a bench for a success dispatched at `at`. */
    method ClearKey(key: nat, cfg: int, at: nat, now: nat)
      modifies this`states
      ensures states == Judged(old(states), key, Succeeded(cfg, at), now)
    {
      var current := StateFor(key, cfg);
      if !current {
        RewriteIsIdle(states, key);
        return;
      }
      if at > states[key].recoveredAt {
        states := states[key := states[key].(recoveredAt := at)];
      }
      if states[key].Benched() && at > states[key].benchInstalled {
        states := states[key := states[key].DropBench()];
      }
    }

    /** The order to walk a provider's keys in. The cursor advances on every walk of a non-empty list. */
    method WalkOrder(provider: nat, keys: seq<ProviderKey>, now: nat) returns (order: seq<ProviderKey>)
      modifies this
      ensures order == Walk(old(states), old(Cursor(provider)), keys, now)
      ensures states == Swept(old(states), keys, now)
      ensures cursors == if keys == [] then old(cursors)
                         else old(cursors)[provider := (old(Cursor(provider)) + 1) % CURSOR_SPAN]
    {
      if |keys| == 0 {
        return keys;
      }
      var cur := Cursor(provider);
      cursors := cursors[provider := (cur + 1) % CURSOR_SPAN];
      if |keys| < 2 {
        return keys;
      }
      var ready: seq<ProviderKey>, tail: seq<Waiting> := [], [];
      for i := 0 to |keys|
        invariant cursors == old(cursors)[provider := (cur + 1) % CURSOR_SPAN]
        invariant states == Sweep(old(states), keys[..i], now)
        invariant ready == Ready(old(states), keys[..i], now)
        invariant tail == Tail(old(states), keys[..i], now)
      {
        assert keys[..i + 1][..i] == keys[..i];
        var k := keys[i];
        if k.id in states && states[k.id].Benched() {
          if states[k.id].cfg != k.cfg {
            if states[k.id].cfg < k.cfg {
              states := states[k.id := states[k.id].DropBench()];
            }
          } else if states[k.id].benchUntil > now {
            tail := tail + [Waiting(k, states[k.id].benchUntil)];
            continue;
          } else {
            states := states[k.id := states[k.id].DropBench()];
          }
        }
        ready := ready + [k];
      }
      assert keys[..|keys|] == keys;
      order := [];
      if |ready| > 0 {
        var start := cur % |ready|;
        order := order + ready[start..];
        order := order + ready[..start];
      }
      if |tail| == 0 {
        return;
      }
      tail := BySoonest(tail);
      order := order + KeysOf(tail);
    }
  }

  lemma RewriteIsIdle(states: States, key: nat)
    ensures key in states ==> states[key := states[key]] == states
  {
  }
}
