/**
 What any run of verdicts and walks leaves in a key's record: which generation it
 speaks for, which 429s it still refuses, and what a standing bench implies.
 */
module KeyVerdicts {
  import opened Wrappers
  import opened KeyPool

  /** How far a record has got: its generation, and the dispatch time up to which it refuses 429s. */
  datatype Standing = Unseen | Seen(cfg: int, threshold: nat)

  function StandingOf(record: Option<KeyState>): Standing {
    match record
    case None => Unseen
    case Some(s) => Seen(s.cfg, s.Threshold())
  }

  predicate AtMost(a: Standing, b: Standing) {
    match a
    case Unseen => true
    case Seen(cfg, threshold) => b.Seen? && (cfg < b.cfg || (cfg == b.cfg && threshold <= b.threshold))
  }

  /** What a verdict testifies to by itself. Body evidence on a standing bench carries no date of its own. */
  function Testimony(v: Verdict): Standing {
    if !Heard(v) then Unseen
    else if v.Lengthened? then Seen(v.cfg, 0)
    else Seen(v.cfg, v.at)
  }

  function Later(a: Standing, b: Standing): Standing {
    if AtMost(a, b) then b else a
  }

  // ----- One step -----

  /** A verdict moves the record to the later of what it stood at and what the verdict testifies. */
  lemma JudgingTakesTheLater(record: Option<KeyState>, v: Verdict, now: nat)
    ensures StandingOf(Judge(record, v, now)) == Later(StandingOf(record), Testimony(v))
  {
    var s := Positioned(record, v.cfg);
    if Heard(v) && s.Some? {
      assert Amend(s.value, v, now).Threshold() == Max(s.value.Threshold(), Testimony(v).threshold);
    }
  }

  /** A 429 changes nothing exactly when the record already stands at or past it. */
  lemma RefusedIffOutranked(record: Option<KeyState>, cfg: int, at: nat, window: int, now: nat)
    requires window > 0
    ensures Judge(record, Limited(cfg, at, window), now) == record <==> record.Some? && AtMost(Seen(cfg, at), StandingOf(record))
  {
    JudgingTakesTheLater(record, Limited(cfg, at, window), now);
    if record.Some? && AtMost(Seen(cfg, at), StandingOf(record)) {
      assert cfg == record.value.cfg ==> Amend(record.value, Limited(cfg, at, window), now) == record.value;
    } else if cfg > (if record.Some? then record.value.cfg else cfg - 1) {
      assert Judge(record, Limited(cfg, at, window), now).value.cfg == cfg;
    }
  }

  /** Later evidence from the same 429 only ever moves a standing bench later. */
  lemma LengtheningNeverShortens(s: KeyState, v: Verdict, now: nat)
    requires v.Lengthened? && v.cfg == s.cfg
    ensures var after := Judge(Some(s), v, now).value;
            && after.Benched() == s.Benched() && after.benchUntil >= s.benchUntil
            && after == s.(benchUntil := after.benchUntil)
            && (after.benchUntil != s.benchUntil ==> after.benchUntil == now + v.window)
  {
  }

  // ----- Runs -----

  datatype Event =
    | Verdicts(key: nat, verdict: Verdict, now: nat)
    | Walks(keys: seq<ProviderKey>, now: nat)

  function Happens(states: States, e: Event): States {
    match e
    case Verdicts(key, verdict, now) => Judged(states, key, verdict, now)
    case Walks(keys, now) => Swept(states, keys, now)
  }

  function Run(states: States, events: seq<Event>): States
    decreases |events|
  {
    if events == [] then states else Run(Happens(states, events[0]), events[1..])
  }

  /** The verdicts a run reports on one key, whatever their order and their arrival times. */
  function Said(events: seq<Event>, key: nat): set<Verdict> {
    set i | 0 <= i < |events| && events[i].Verdicts? && events[i].key == key :: events[i].verdict
  }

  /** A walk touches nothing of a record but its bench, and only to release it. */
  predicate OnlyReleased(before: Option<KeyState>, after: Option<KeyState>) {
    after == before || (before.Some? && after == Some(before.value.DropBench()))
  }

  lemma {:induction false} SweepOnlyReleases(states: States, keys: seq<ProviderKey>, now: nat, key: nat)
    ensures OnlyReleased(Lookup(states, key), Lookup(Sweep(states, keys, now), key))
  {
    if keys != [] {
      SweepOnlyReleases(states, keys[..|keys| - 1], now, key);
    }
  }

  lemma StepStands(states: States, e: Event, key: nat)
    ensures StandingOf(Lookup(Happens(states, e), key))
            == if e.Verdicts? && e.key == key then Later(StandingOf(Lookup(states, key)), Testimony(e.verdict))
               else StandingOf(Lookup(states, key))
  {
    match e
    case Verdicts(k, v, now) =>
      JudgingTakesTheLater(Lookup(states, key), v, now);
    case Walks(keys, now) =>
      SweepOnlyReleases(states, keys, now, key);
  }

  /** `top` is the latest of what a record stood at and what was said: an upper bound that something attains. */
  ghost predicate IsLatest(top: Standing, start: Standing, said: set<Verdict>) {
    && AtMost(start, top) && (forall v :: v in said ==> AtMost(Testimony(v), top))
    && (top == start || exists v :: v in said && Testimony(v) == top)
  }

  lemma SaidFirst(events: seq<Event>, key: nat)
    requires events != []
    ensures Said(events, key)
            == (if events[0].Verdicts? && events[0].key == key then {events[0].verdict} else {}) + Said(events[1..], key)
  {
    forall v | v in Said(events, key)
      ensures v in (if events[0].Verdicts? && events[0].key == key then {events[0].verdict} else {}) + Said(events[1..], key)
    {
      var i :| 0 <= i < |events| && events[i].Verdicts? && events[i].key == key && events[i].verdict == v;
      if i > 0 {
        assert events[1..][i - 1] == events[i];
      }
    }
    forall v | v in Said(events[1..], key)
      ensures v in Said(events, key)
    {
      var i :| 0 <= i < |events[1..]| && events[1..][i].Verdicts? && events[1..][i].key == key && events[1..][i].verdict == v;
      assert events[i + 1] == events[1..][i];
    }
  }

  /** Whatever the run, a key's record ends at the latest of what was said about it. */
  lemma {:induction false} RunStandsAtTheLatest(states: States, events: seq<Event>, key: nat)
    ensures IsLatest(StandingOf(Lookup(Run(states, events), key)), StandingOf(Lookup(states, key)), Said(events, key))
    decreases |events|
  {
    if events != [] {
      var next := Happens(states, events[0]);
      RunStandsAtTheLatest(next, events[1..], key);
      StepStands(states, events[0], key);
      SaidFirst(events, key);
    }
  }

  /**
   Confluence: two runs that report the same verdicts on a key, in any orders, any
   number of times, at any arrival times and with any walks between them, end in
   the same generation refusing the same 429s.
   */
  lemma VerdictsAreConfluent(states: States, one: seq<Event>, other: seq<Event>, key: nat)
    requires Said(one, key) == Said(other, key)
    ensures StandingOf(Lookup(Run(states, one), key)) == StandingOf(Lookup(Run(states, other), key))
  {
    RunStandsAtTheLatest(states, one, key);
    RunStandsAtTheLatest(states, other, key);
  }

  /**
   On a key with no record yet: the generation is the newest reported, and the
   threshold is the latest dispatch time reported within that generation.
   */
  lemma ThresholdIsTheLatestOfTheNewest(states: States, events: seq<Event>, key: nat)
    requires key !in states && key in Run(states, events)
    ensures (var s := Run(states, events)[key];
             && (forall v :: v in Said(events, key) && Heard(v) ==> v.cfg <= s.cfg)
             && (exists v :: v in Said(events, key) && Heard(v) && v.cfg == s.cfg)
             && (forall v :: v in Said(events, key) && Heard(v) && v.cfg == s.cfg && !v.Lengthened? ==> v.at <= s.Threshold())
             && (s.Threshold() == 0
                 || exists v :: v in Said(events, key) && !v.Lengthened? && v.cfg == s.cfg && v.at == s.Threshold()))
  {
    RunStandsAtTheLatest(states, events, key);
    var s := Run(states, events)[key];
    forall v | v in Said(events, key) && Heard(v)
      ensures v.cfg <= s.cfg && (v.cfg == s.cfg && !v.Lengthened? ==> v.at <= s.Threshold())
    {
      assert AtMost(Testimony(v), Seen(s.cfg, s.Threshold()));
    }
    var v :| v in Said(events, key) && Testimony(v) == Seen(s.cfg, s.Threshold());
    assert Heard(v) && v.cfg == s.cfg;
  }

  /** Once refused, always refused: no expiry, release or walk makes an older 429 acceptable again. */
  lemma RefusedStaysRefused(states: States, events: seq<Event>, key: nat, v: Verdict, first: nat, now: nat)
    requires v.Limited? && Heard(v) && key in states && Judged(states, key, v, first) == states
    ensures Judged(Run(states, events), key, v, now) == Run(states, events)
  {
    var end := Run(states, events);
    assert Judge(Lookup(states, key), v, first) == Lookup(states, key);
    RefusedIffOutranked(Lookup(states, key), v.cfg, v.at, v.window, first);
    RunStandsAtTheLatest(states, events, key);
    RefusedIffOutranked(Lookup(end, key), v.cfg, v.at, v.window, now);
    RewriteIsIdle(end, key);
  }

  /** Generations never go back, nor does the threshold within one. */
  lemma StandingNeverFalls(states: States, events: seq<Event>, key: nat)
    requires key in states
    ensures key in Run(states, events) && Run(states, events)[key].cfg >= states[key].cfg
    ensures Run(states, events)[key].cfg == states[key].cfg ==>
              Run(states, events)[key].Threshold() >= states[key].Threshold()
  {
    RunStandsAtTheLatest(states, events, key);
  }

  // ----- What a standing bench implies -----

  /** Of a record at a moment: what its bench, if any, was booked for and when. */
  predicate Sound(s: KeyState, now: nat) {
    && (!s.Benched() ==> s.benchInstalled == 0)
    && (s.Benched() ==>
          && s.limitedAt > s.invalidatedAt
          && s.recoveredAt <= s.benchInstalled <= now
          && s.limitedAt <= s.benchInstalled < s.benchUntil)
  }

  ghost predicate AllSound(states: States, now: nat) {
    forall k :: k in states ==> Sound(states[k], now)
  }

  /** The clock never runs back, and nothing is dated in its future. */
  predicate Timely(events: seq<Event>, start: nat) {
    events != [] ==>
      && start <= events[0].now
      && (events[0].Verdicts? ==> events[0].verdict.at <= events[0].now)
      && Timely(events[1..], events[0].now)
  }

  lemma StepStaysSound(states: States, e: Event, before: nat)
    requires AllSound(states, before) && before <= e.now && (e.Verdicts? ==> e.verdict.at <= e.now)
    ensures AllSound(Happens(states, e), e.now)
  {
    hide Sweep;
    match e
    case Walks(keys, now) =>
      forall k | k in Happens(states, e)
        ensures Sound(Happens(states, e)[k], now)
      {
        SweepOnlyReleases(states, keys, now, k);
      }
    case Verdicts(key, v, now) =>
      var s := Positioned(Lookup(states, key), v.cfg);
      if s.Some? {
        AmendStaysSound(s.value, v, now);
      }
  }

  lemma AmendStaysSound(s: KeyState, v: Verdict, now: nat)
    requires Sound(s, now) && v.at <= now
    ensures Sound(Amend(s, v, now), now)
  {
  }

  /**
   In every reachable record a standing bench's 429 went out after the last
   invalidation, no success dispatched after its booking has been seen, and it
   was booked by now for a later end.
   */
  lemma {:induction false} BenchesStaySound(states: States, events: seq<Event>, start: nat)
    requires AllSound(states, start) && Timely(events, start)
    ensures AllSound(Run(states, events), if events == [] then start else events[|events| - 1].now)
    decreases |events|
  {
    if events != [] {
      StepStaysSound(states, events[0], start);
      BenchesStaySound(Happens(states, events[0]), events[1..], events[0].now);
    }
  }

  // ----- Which verdicts commute on the bench -----

  /** Whether a key is benched, until when and since when. */
  function BenchOf(record: Option<KeyState>): (nat, nat) {
    match record
    case None => (0, 0)
    case Some(s) => (s.benchUntil, s.benchInstalled)
  }

  /** The record after two verdicts seen at one moment. */
  function After(record: Option<KeyState>, first: Verdict, second: Verdict, now: nat): Option<KeyState> {
    Judge(Judge(record, first, now), second, now)
  }

  /** Body evidence that would move the bench a record has. */
  predicate WouldLengthen(s: KeyState, v: Verdict, now: nat) {
    && v.Lengthened? && s.Benched() && v.at > s.invalidatedAt && v.at > s.recoveredAt && v.at >= s.limitedAt
    && now + v.window > s.benchUntil
  }

  /** A 429 the record still hears, against what `w` says of the time between its dispatch and its booking. */
  predicate LimitClashes(s: KeyState, v: Verdict, w: Verdict, now: nat) {
    && v.Limited? && v.at > s.Threshold()
    && match w
       // won by then: it refuses the 429 or, seen second, releases nothing, unless the same bench stood already
       case Succeeded(_, at) => v.at <= at && (s.benchUntil, s.benchInstalled) != (now + v.window, now)
       // the first of two 429s sent at one moment is the one that stands
       case Limited(_, at, window) => at == v.at && window != v.window
       // a longer window is lost to the booking that overwrites it
       case Lengthened(_, at, window) => at >= v.at && window > v.window
       case Invalidated(_, _) => false
  }

  /** A success that releases nothing, yet closes the bench to the evidence. */
  predicate EvidenceClashes(s: KeyState, v: Verdict, w: Verdict, now: nat) {
    WouldLengthen(s, v, now) && w.Succeeded? && v.at <= w.at <= s.benchInstalled
  }

  predicate Clash(s: KeyState, v: Verdict, w: Verdict, now: nat) {
    LimitClashes(s, v, w, now) || LimitClashes(s, w, v, now) || EvidenceClashes(s, v, w, now) || EvidenceClashes(s, w, v, now)
  }

  /** Two verdicts of one generation, seen at one moment, on a record they both speak to. */
  predicate Together(s: KeyState, v: Verdict, w: Verdict, now: nat) {
    Heard(v) && Heard(w) && v.cfg == w.cfg == s.cfg && Sound(s, now) && v.at <= now && w.at <= now
  }

  predicate Commute(s: KeyState, v: Verdict, w: Verdict, now: nat) {
    BenchOf(Some(Amend(Amend(s, v, now), w, now))) == BenchOf(Some(Amend(Amend(s, w, now), v, now)))
  }

  lemma LimitAndLimit(s: KeyState, v: Verdict, w: Verdict, now: nat)
    requires Together(s, v, w, now) && v.Limited? && w.Limited?
    ensures Commute(s, v, w, now) <==> !Clash(s, v, w, now)
  {
  }

  lemma LimitAndSuccess(s: KeyState, v: Verdict, w: Verdict, now: nat)
    requires Together(s, v, w, now) && v.Limited? && w.Succeeded?
    ensures Commute(s, v, w, now) <==> !Clash(s, v, w, now)
  {
  }

  lemma LimitAndEvidence(s: KeyState, v: Verdict, w: Verdict, now: nat)
    requires Together(s, v, w, now) && v.Limited? && w.Lengthened?
    ensures Commute(s, v, w, now) <==> !Clash(s, v, w, now)
  {
  }

  lemma LimitAndInvalidation(s: KeyState, v: Verdict, w: Verdict, now: nat)
    requires Together(s, v, w, now) && v.Limited? && w.Invalidated?
    ensures Commute(s, v, w, now) <==> !Clash(s, v, w, now)
  {
  }

  lemma EvidenceAndSuccess(s: KeyState, v: Verdict, w: Verdict, now: nat)
    requires Together(s, v, w, now) && v.Lengthened? && w.Succeeded?
    ensures Commute(s, v, w, now) <==> !Clash(s, v, w, now)
  {
  }

  lemma EvidenceAndOther(s: KeyState, v: Verdict, w: Verdict, now: nat)
    requires Together(s, v, w, now) && v.Lengthened? && (w.Lengthened? || w.Invalidated?)
    ensures Commute(s, v, w, now) <==> !Clash(s, v, w, now)
  {
  }

  lemma MarksCommute(s: KeyState, v: Verdict, w: Verdict, now: nat)
    requires Together(s, v, w, now) && (v.Invalidated? || v.Succeeded?) && (w.Invalidated? || w.Succeeded?)
    ensures Commute(s, v, w, now) <==> !Clash(s, v, w, now)
  {
  }

  lemma AmendmentsCommuteUnlessClash(s: KeyState, v: Verdict, w: Verdict, now: nat)
    requires Together(s, v, w, now)
    ensures Commute(s, v, w, now) <==> !Clash(s, v, w, now)
  {
    hide Amend, BenchOf, LimitClashes, EvidenceClashes, Sound;
    if v.Limited? {
      match w
      case Limited(_, _, _) => LimitAndLimit(s, v, w, now);
      case Succeeded(_, _) => LimitAndSuccess(s, v, w, now);
      case Lengthened(_, _, _) => LimitAndEvidence(s, v, w, now);
      case Invalidated(_, _) => LimitAndInvalidation(s, v, w, now);
    } else if w.Limited? {
      match v
      case Succeeded(_, _) => LimitAndSuccess(s, w, v, now);
      case Lengthened(_, _, _) => LimitAndEvidence(s, w, v, now);
      case Invalidated(_, _) => LimitAndInvalidation(s, w, v, now);
    } else if v.Lengthened? {
      if w.Succeeded? { EvidenceAndSuccess(s, v, w, now); } else { EvidenceAndOther(s, v, w, now); }
    } else if w.Lengthened? {
      if v.Succeeded? { EvidenceAndSuccess(s, w, v, now); } else { EvidenceAndOther(s, w, v, now); }
    } else {
      MarksCommute(s, v, w, now);
    }
  }

  /**
   From any record a run can leave, two verdicts seen at one moment leave the same
   bench in either order, exactly unless they are of one generation the record
   still speaks for and clash: a success dispatched between a 429's dispatch and
   its booking, two 429s of one dispatch time and different windows, body
   evidence that a booking would overwrite, or a success that refuses it.
   */
  lemma VerdictsCommuteUnlessClash(record: Option<KeyState>, v: Verdict, w: Verdict, now: nat)
    requires record.Some? ==> Sound(record.value, now)
    requires Heard(v) && Heard(w) && v.at <= now && w.at <= now
    ensures BenchOf(After(record, v, w, now)) == BenchOf(After(record, w, v, now))
            <==> !(v.cfg == w.cfg && Positioned(record, v.cfg).Some? && Clash(Positioned(record, v.cfg).value, v, w, now))
  {
    hide Amend, Clash, Sound, Heard;
    AmendKeepsTheGeneration();
    if v.cfg == w.cfg {
      var s := Positioned(record, v.cfg);
      if s.Some? {
        PositionedIsSound(record, v.cfg, now);
        AmendmentsCommuteUnlessClash(s.value, v, w, now);
      }
    } else {
      GenerationsCommute(record, v, w, now);
    }
  }

  lemma PositionedIsSound(record: Option<KeyState>, cfg: int, now: nat)
    requires record.Some? ==> Sound(record.value, now)
    ensures Positioned(record, cfg).Some? ==>
              Sound(Positioned(record, cfg).value, now) && Positioned(record, cfg).value.cfg == cfg
  {
  }

  /** Of two generations the newer one's verdict is all that counts. */
  lemma GenerationsCommute(record: Option<KeyState>, v: Verdict, w: Verdict, now: nat)
    requires v.cfg != w.cfg && Heard(v) && Heard(w)
    ensures After(record, v, w, now) == After(record, w, v, now)
  {
    hide Amend, Heard;
    AmendKeepsTheGeneration();
  }

  lemma AmendKeepsTheGeneration()
    ensures forall s: KeyState, v: Verdict, now: nat :: Amend(s, v, now).cfg == s.cfg
  {
  }

  /**
   On a key with no record: a 429 and a success, both booked at one moment, leave
   the same record in either order if and only if the success went out first.
   */
  lemma BenchDependsOnArrival(key: nat, cfg: int, sent: nat, won: nat, booked: nat, window: int)
    requires 0 < sent <= booked && won <= booked && window > 0
    ensures (var limit, success := Verdicts(key, Limited(cfg, sent, window), booked), Verdicts(key, Succeeded(cfg, won), booked);
             && Run(map[], [limit, success]) == map[key := KeyState(cfg, booked + window, booked, sent, 0, won)]
             && (Run(map[], [limit, success]) == Run(map[], [success, limit]) <==> won < sent))
  {
    var limit, success := Verdicts(key, Limited(cfg, sent, window), booked), Verdicts(key, Succeeded(cfg, won), booked);
    var first: States, late: States := Happens(map[], limit), Happens(map[], success);
    assert [limit, success][1..] == [success] && [success, limit][1..] == [limit];
    assert Run(map[], [limit, success]) == Run(first, [success]) == Happens(first, success);
    assert Run(map[], [success, limit]) == Run(late, [limit]) == Happens(late, limit);
    assert key in Run(map[], [success, limit]);
    assert Run(map[], [success, limit])[key].Benched() <==> won < sent;
  }
}
