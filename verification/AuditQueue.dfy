/**
 The audit writer (internal/audit/worker.go): a bounded queue filled by requests that
 never wait, and one flusher that empties it in batches.
 */
module AuditQueue {
  import opened Wrappers

  const DEFAULT_BUFFER_SIZE := 256
  const DEFAULT_BATCH_SIZE := 64

  /** `at` is when the event was captured, 0 being the zero time; the rest of a record is opaque. */
  datatype Record = Record(at: nat, event: string)

  type Instant = t: nat | 0 < t witness 1

  function Stamp(rec: Record, now: Instant): Record {
    if rec.at == 0 then rec.(at := now) else rec
  }

  /** Rows of a batch: each keeps its own time, or the flusher's if it has none. */
  function Rows(batch: seq<Record>, now: Instant): (rows: seq<Record>)
    ensures |rows| == |batch|
    ensures forall i :: 0 <= i < |batch| ==> rows[i].event == batch[i].event
    ensures (forall i :: 0 <= i < |batch| ==> batch[i].at != 0) ==> rows == batch
  {
    seq(|batch|, i requires 0 <= i < |batch| => Stamp(batch[i], now))
  }

  // ----- The worker, with nobody else running -----

  /** What reaches the table when `queued` is drained in batches, the i-th insert succeeding when `ok(i)`. */
  function Drained(queued: seq<Record>, size: nat, now: Instant, ok: nat -> bool, i: nat): seq<Record>
    requires size > 0
    decreases |queued|
  {
    if queued == [] then []
    else
      var n := Min(size, |queued|);
      (if ok(i) then Rows(queued[..n], now) else []) + Drained(queued[n..], size, now, ok, i + 1)
  }

  lemma DrainedNothing(size: nat, now: Instant, ok: nat -> bool, i: nat)
    requires size > 0
    ensures Drained([], size, now, ok, i) == []
  {
  }

  lemma DrainedOneBatch(batch: seq<Record>, rest: seq<Record>, size: nat, now: Instant, ok: nat -> bool, i: nat)
    requires size > 0 && batch != [] && |batch| == Min(size, |batch| + |rest|)
    ensures Drained(batch + rest, size, now, ok, i)
            == (if ok(i) then Rows(batch, now) else []) + Drained(rest, size, now, ok, i + 1)
  {
    assert (batch + rest)[..|batch|] == batch && (batch + rest)[|batch|..] == rest;
  }

  class Worker {
    const capacity: nat
    const batchSize: nat
    var queue: seq<Record>
    var droppedTotal: nat
    var table: seq<Record>

    ghost predicate Valid()
      reads this
    {
      batchSize > 0 && capacity > 0 && |queue| <= capacity
    }

    constructor (bufferSize: int, batchSize: int)
      ensures Valid() && queue == [] && droppedTotal == 0 && table == []
      ensures capacity == if bufferSize <= 0 then DEFAULT_BUFFER_SIZE else bufferSize
      ensures this.batchSize == if batchSize <= 0 then DEFAULT_BATCH_SIZE else batchSize
    {
      capacity := if bufferSize <= 0 then DEFAULT_BUFFER_SIZE else bufferSize;
      this.batchSize := if batchSize <= 0 then DEFAULT_BATCH_SIZE else batchSize;
      queue, droppedTotal, table := [], 0, [];
    }

    /** Queue a record, or drop it, never one already queued, when the queue is full. */
    method Submit(rec: Record, now: Instant)
      requires Valid()
      modifies this`queue, this`droppedTotal
      ensures Valid()
      ensures if |old(queue)| < capacity then queue == old(queue) + [Stamp(rec, now)] && droppedTotal == old(droppedTotal)
              else queue == old(queue) && droppedTotal == old(droppedTotal) + 1
    {
      var stamped := rec;
      if stamped.at == 0 {
        stamped := stamped.(at := now);
      }
      if |queue| < capacity {
        queue := queue + [stamped];
      } else {
        droppedTotal := droppedTotal + 1;
      }
    }

    method TakeBatch() returns (batch: seq<Record>)
      requires Valid()
      modifies this`queue
      ensures Valid()
      ensures batch == old(queue)[..Min(batchSize, |old(queue)|)] && batch + queue == old(queue)
    {
      batch := [];
      while |batch| < batchSize
        invariant |batch| <= batchSize && |queue| <= capacity
        invariant batch + queue == old(queue)
      {
        if |queue| == 0 {
          return batch;
        }
        batch := batch + [queue[0]];
        queue := queue[1..];
      }
    }

    /** Empty the queue, batch after batch; a failed insert loses its batch and nothing else. */
    method DrainAndFlush(now: Instant, ok: nat -> bool)
      requires Valid()
      modifies this`queue, this`table
      ensures Valid() && queue == []
      ensures table == old(table) + Drained(old(queue), batchSize, now, ok, 0)
    {
      hide Rows, Drained;
      var i := 0;
      while true
        invariant Valid()
        invariant table + Drained(queue, batchSize, now, ok, i) == old(table) + Drained(old(queue), batchSize, now, ok, 0)
        decreases |queue|
      {
        var batch := TakeBatch();
        if |batch| == 0 {
          DrainedNothing(batchSize, now, ok, i);
          return;
        }
        DrainedOneBatch(batch, queue, batchSize, now, ok, i);
        if ok(i) {
          table := table + Rows(batch, now);
        }
        i := i + 1;
      }
    }
  }

  // ----- Requests and the flusher, interleaved -----

  datatype Config = Config(capacity: nat, batchSize: nat)

  /** One insert the flusher tried. */
  datatype Insert = Insert(batch: seq<Record>, ok: bool)

  datatype Phase = Idle | Taking(last: bool) | Flushing(last: bool) | Exited

  /**
   `submitted`, `enqueued`, `inserts` and `late` (the submissions since stop was
   called) are history; the rest is the worker.
   */
  datatype Machine = Machine(queue: seq<Record>, dropped: seq<Record>, batch: seq<Record>, table: seq<Record>, phase: Phase,
                             stopped: bool, submitted: seq<Record>, enqueued: seq<Record>, inserts: seq<Insert>, late: nat)

  datatype Step =
    | Submitting(rec: Record, now: Instant)
    | Tick
    | Stop
    | NoticeStop
    | Receive
    | EndBatch
    | Flush(ok: bool, now: Instant)

  const FRESH := Machine([], [], [], [], Idle, false, [], [], [], 0)

  predicate Enabled(cfg: Config, m: Machine, s: Step) {
    match s
    case Submitting(_, _) => true
    case Stop => true
    case Tick => m.phase.Idle?
    case NoticeStop => m.phase.Idle? && m.stopped
    case Receive => m.phase.Taking? && |m.batch| < cfg.batchSize && m.queue != []
    case EndBatch => m.phase.Taking? && (|m.batch| >= cfg.batchSize || m.queue == [])
    case Flush(_, _) => m.phase.Flushing?
  }

  function Next(cfg: Config, m: Machine, s: Step): Machine
    requires Enabled(cfg, m, s)
  {
    match s
    case Submitting(rec, now) =>
      var r := Stamp(rec, now);
      var full := |m.queue| >= cfg.capacity;
      Machine(if full then m.queue else m.queue + [r], if full then m.dropped + [r] else m.dropped, m.batch, m.table, m.phase,
              m.stopped, m.submitted + [r], if full then m.enqueued else m.enqueued + [r], m.inserts,
              if m.stopped then m.late + 1 else m.late)
    case Tick => m.(phase := Taking(false))
    case Stop => m.(stopped := true)
    case NoticeStop => m.(phase := Taking(true))
    case Receive => m.(batch := m.batch + [m.queue[0]], queue := m.queue[1..])
    case EndBatch =>
      if m.batch != [] then m.(phase := Flushing(m.phase.last))
      else m.(phase := if m.phase.last then Exited else Idle)
    case Flush(ok, now) =>
      m.(batch := [], phase := Taking(m.phase.last), inserts := m.inserts + [Insert(m.batch, ok)],
         table := if ok then m.table + Rows(m.batch, now) else m.table)
  }

  predicate IsRun(cfg: Config, states: seq<Machine>, steps: seq<Step>) {
    && cfg.batchSize > 0 && |states| == |steps| + 1 && states[0] == FRESH
    && forall i :: 0 <= i < |steps| ==> Enabled(cfg, states[i], steps[i]) && states[i + 1] == Next(cfg, states[i], steps[i])
  }

  // ----- What every run keeps -----

  function Tried(inserts: seq<Insert>): seq<Record> {
    if inserts == [] then [] else Tried(inserts[..|inserts| - 1]) + inserts[|inserts| - 1].batch
  }

  /** The records of the inserts that went as `ok` says. */
  function Went(inserts: seq<Insert>, ok: bool): seq<Record> {
    if inserts == [] then []
    else
      Went(inserts[..|inserts| - 1], ok)
      + if inserts[|inserts| - 1].ok == ok then inserts[|inserts| - 1].batch else []
  }

  predicate AllStamped(records: seq<Record>) {
    forall i :: 0 <= i < |records| ==> records[i].at != 0
  }

  /** `at` says where in `b` each of `a` is found, in `b`'s order. */
  predicate Places<T(==)>(at: seq<nat>, a: seq<T>, b: seq<T>) {
    && |at| == |a|
    && (forall i :: 0 <= i < |at| ==> at[i] < |b| && a[i] == b[at[i]])
    && forall i, j :: 0 <= i < j < |at| ==> at[i] < at[j]
  }

  /** `a` is some of `b`, in `b`'s order. */
  ghost predicate Subsequence<T>(a: seq<T>, b: seq<T>) {
    exists at: seq<nat> :: Places(at, a, b)
  }

  function Counted(from: nat, n: nat): (at: seq<nat>)
    ensures |at| == n && forall i :: 0 <= i < n ==> at[i] == from + i
  {
    seq(n, i requires 0 <= i < n => from + i)
  }

  function Moved(at: seq<nat>, shift: nat): (r: seq<nat>)
    ensures |r| == |at| && forall i :: 0 <= i < |at| ==> r[i] == shift + at[i]
  {
    seq(|at|, i requires 0 <= i < |at| => shift + at[i])
  }

  ghost predicate Inv(cfg: Config, m: Machine) {
    && cfg.batchSize > 0
    && |m.queue| <= cfg.capacity
    && |m.batch| <= cfg.batchSize
    && AllStamped(m.submitted) && AllStamped(m.batch) && AllStamped(m.queue)
    && multiset(m.submitted) == multiset(m.enqueued) + multiset(m.dropped)
    && m.enqueued == Tried(m.inserts) + m.batch + m.queue
    && m.table == Went(m.inserts, true)
    && (m.phase.Idle? || m.phase.Exited? ==> m.batch == [])
    && (m.phase.Flushing? ==> m.batch != [])
    && ((m.phase.Taking? || m.phase.Flushing?) && m.phase.last ==> m.stopped)
    && (m.phase.Exited? ==> m.stopped && |m.queue| <= m.late)
  }

  lemma OneMoreInsert(inserts: seq<Insert>, e: Insert)
    ensures Tried(inserts + [e]) == Tried(inserts) + e.batch
    ensures forall ok :: Went(inserts + [e], ok) == Went(inserts, ok) + if e.ok == ok then e.batch else []
  {
    assert (inserts + [e])[..|inserts|] == inserts;
  }

  lemma OneMoreStamped(records: seq<Record>, r: Record)
    requires AllStamped(records) && r.at != 0
    ensures AllStamped(records + [r])
  {
  }

  lemma OneMoreAccountedFor(submitted: seq<Record>, enqueued: seq<Record>, dropped: seq<Record>, r: Record)
    requires multiset(submitted) == multiset(enqueued) + multiset(dropped)
    ensures multiset(submitted + [r]) == multiset(enqueued + [r]) + multiset(dropped)
    ensures multiset(submitted + [r]) == multiset(enqueued) + multiset(dropped + [r])
  {
  }

  lemma SubmittingKeeps(cfg: Config, m: Machine, rec: Record, now: Instant)
    requires Inv(cfg, m)
    ensures Inv(cfg, Next(cfg, m, Submitting(rec, now)))
  {
    hide Tried, Went, AllStamped;
    var after := Next(cfg, m, Submitting(rec, now));
    OneMoreStamped(m.submitted, Stamp(rec, now));
    OneMoreAccountedFor(m.submitted, m.enqueued, m.dropped, Stamp(rec, now));
    if |m.queue| < cfg.capacity {
      OneMoreStamped(m.queue, Stamp(rec, now));
      assert after.enqueued == Tried(m.inserts) + m.batch + after.queue;
    }
  }

  lemma FlushKeeps(cfg: Config, m: Machine, ok: bool, now: Instant)
    requires Inv(cfg, m) && m.phase.Flushing?
    ensures Inv(cfg, Next(cfg, m, Flush(ok, now)))
  {
    OneMoreInsert(m.inserts, Insert(m.batch, ok));
    var after := Next(cfg, m, Flush(ok, now));
    assert after.enqueued == Tried(after.inserts) + after.batch + after.queue;
  }

  lemma StepKeeps(cfg: Config, m: Machine, s: Step)
    requires Inv(cfg, m) && Enabled(cfg, m, s)
    ensures Inv(cfg, Next(cfg, m, s))
  {
    hide Inv, Next;
    match s
    case Submitting(rec, now) => SubmittingKeeps(cfg, m, rec, now);
    case Flush(ok, now) => FlushKeeps(cfg, m, ok, now);
    case Receive => ReceiveKeeps(cfg, m);
    case _ => QuietStepKeeps(cfg, m, s);
  }

  lemma ReceiveKeeps(cfg: Config, m: Machine)
    requires Inv(cfg, m) && Enabled(cfg, m, Receive)
    ensures Inv(cfg, Next(cfg, m, Receive))
  {
    hide Tried, Went;
    assert m.queue == [m.queue[0]] + m.queue[1..];
    assert Tried(m.inserts) + m.batch + m.queue == Tried(m.inserts) + (m.batch + [m.queue[0]]) + m.queue[1..];
  }

  /** The steps that move no record. */
  lemma QuietStepKeeps(cfg: Config, m: Machine, s: Step)
    requires Inv(cfg, m) && Enabled(cfg, m, s) && (s.Tick? || s.Stop? || s.NoticeStop? || s.EndBatch?)
    ensures Inv(cfg, Next(cfg, m, s))
  {
    hide Tried, Went, AllStamped;
  }

  lemma {:induction false} RunKeeps(cfg: Config, states: seq<Machine>, steps: seq<Step>, n: nat)
    requires IsRun(cfg, states, steps) && n < |states|
    ensures Inv(cfg, states[n])
  {
    hide Inv, Enabled;
    if n > 0 {
      RunKeeps(cfg, states, steps, n - 1);
      StepKeeps(cfg, states[n - 1], steps[n - 1]);
    } else {
      FreshIsFine(cfg);
    }
  }

  lemma FreshIsFine(cfg: Config)
    requires cfg.batchSize > 0
    ensures Inv(cfg, FRESH)
  {
  }

  lemma {:induction false} TriedSplits(inserts: seq<Insert>)
    ensures multiset(Tried(inserts)) == multiset(Went(inserts, true)) + multiset(Went(inserts, false))
  {
    if inserts != [] {
      TriedSplits(inserts[..|inserts| - 1]);
    }
  }

  /**
   In every state of every run: the queue is within its capacity, and what was
   submitted is exactly what is queued, dropped, in the flusher's hands, in the table,
   or lost to failed inserts.
   */
  lemma RecordsAreConserved(cfg: Config, states: seq<Machine>, steps: seq<Step>, n: nat)
    requires IsRun(cfg, states, steps) && n < |states|
    ensures (var m := states[n];
             && |m.queue| <= cfg.capacity
             && multiset(m.submitted)
                == multiset(m.queue) + multiset(m.dropped) + multiset(m.batch) + multiset(m.table) + multiset(Went(m.inserts, false)))
  {
    hide AllStamped, IsRun, Tried, Went;
    var m := states[n];
    RunKeeps(cfg, states, steps, n);
    TriedSplits(m.inserts);
    assert multiset(m.enqueued) == multiset(Tried(m.inserts)) + multiset(m.batch) + multiset(m.queue);
  }

  lemma {:induction false} WentIsSubsequence(inserts: seq<Insert>, ok: bool)
    ensures Subsequence(Went(inserts, ok), Tried(inserts))
  {
    hide Subsequence;
    if inserts == [] {
      NothingIsSubsequence<Record>([]);
    } else {
      var n := |inserts| - 1;
      WentIsSubsequence(inserts[..n], ok);
      var e := inserts[n];
      if e.ok == ok {
        BothExtended(Went(inserts[..n], ok), Tried(inserts[..n]), e.batch);
      } else {
        LongerStill(Went(inserts[..n], ok), Tried(inserts[..n]), e.batch);
        assert Went(inserts, ok) == Went(inserts[..n], ok);
      }
    }
  }

  lemma NothingIsSubsequence<T>(b: seq<T>)
    ensures Subsequence([], b)
  {
    assert Places([], [], b);
  }

  lemma BothExtended<T>(a: seq<T>, b: seq<T>, more: seq<T>)
    requires Subsequence(a, b)
    ensures Subsequence(a + more, b + more)
  {
    var at: seq<nat> :| Places(at, a, b);
    assert Places(at + Counted(|b|, |more|), a + more, b + more);
  }

  lemma LongerStill<T>(a: seq<T>, b: seq<T>, more: seq<T>)
    requires Subsequence(a, b)
    ensures Subsequence(a, b + more)
  {
    var at: seq<nat> :| Places(at, a, b);
    assert Places(at, a, b + more);
  }

  lemma LaterStill<T>(a: seq<T>, b: seq<T>, first: seq<T>)
    requires Subsequence(a, b)
    ensures Subsequence(a, first + b)
  {
    var at: seq<nat> :| Places(at, a, b);
    assert Places(Moved(at, |first|), a, first + b);
  }

  lemma BothPrefixed<T>(a: seq<T>, b: seq<T>, first: seq<T>)
    requires Subsequence(a, b)
    ensures Subsequence(first + a, first + b)
  {
    var at: seq<nat> :| Places(at, a, b);
    assert Places(Counted(0, |first|) + Moved(at, |first|), first + a, first + b);
  }

  /** The table holds records in the order they were queued, each at the time it was captured. */
  lemma TableKeepsTheOrder(cfg: Config, states: seq<Machine>, steps: seq<Step>, n: nat)
    requires IsRun(cfg, states, steps) && n < |states|
    ensures Subsequence(states[n].table, states[n].enqueued)
  {
    hide IsRun, Tried, Went, Subsequence;
    var m := states[n];
    RunKeeps(cfg, states, steps, n);
    WentIsSubsequence(m.inserts, true);
    LongerStill(m.table, Tried(m.inserts), m.batch + m.queue);
    assert Tried(m.inserts) + (m.batch + m.queue) == m.enqueued;
  }

  /** When the flusher has exited, whatever is still queued was submitted after stop; with no such submission nothing is. */
  lemma FinalDrainEmptiesTheQueue(cfg: Config, states: seq<Machine>, steps: seq<Step>, n: nat)
    requires IsRun(cfg, states, steps) && n < |states| && states[n].phase.Exited?
    ensures |states[n].queue| <= states[n].late
    ensures states[n].late == 0 ==>
              states[n].queue == [] && states[n].batch == [] && states[n].enqueued == Tried(states[n].inserts)
  {
    hide IsRun, Tried, Went, AllStamped;
    RunKeeps(cfg, states, steps, n);
  }

  // ----- The shutdown drain is bounded -----

  predicate FlusherStep(s: Step) {
    s.Receive? || s.EndBatch? || s.Flush?
  }

  /** The flusher's own steps left before it exits, nobody submitting. */
  function Work(m: Machine): nat {
    match m.phase
    case Taking(_) => 3 * |m.queue| + 2 * |m.batch| + 1
    case Flushing(_) => 3 * |m.queue| + 2 * |m.batch|
    case _ => 0
  }

  /** In the last drain the flusher always has a step of its own, and each brings its exit nearer. */
  lemma LastDrainIsBounded(cfg: Config, m: Machine)
    requires Inv(cfg, m) && (m.phase.Taking? || m.phase.Flushing?) && m.phase.last
    ensures exists s :: FlusherStep(s) && Enabled(cfg, m, s)
    ensures forall s :: FlusherStep(s) && Enabled(cfg, m, s) ==>
              (var after := Next(cfg, m, s);
               Work(after) < Work(m) && (after.phase.Exited? || ((after.phase.Taking? || after.phase.Flushing?) && after.phase.last)))
  {
    if m.phase.Flushing? {
      assert Enabled(cfg, m, Flush(true, 1)) && FlusherStep(Flush(true, 1));
    } else if |m.batch| < cfg.batchSize && m.queue != [] {
      assert Enabled(cfg, m, Receive) && FlusherStep(Receive);
    } else {
      assert Enabled(cfg, m, EndBatch) && FlusherStep(EndBatch);
    }
  }

  // ----- One uninterrupted drain -----

  lemma RowsOfConcat(a: seq<Record>, b: seq<Record>, now: Instant)
    ensures Rows(a + b, now) == Rows(a, now) + Rows(b, now)
  {
  }

  lemma RowsOfNothing(now: Instant)
    ensures Rows([], now) == []
  {
  }

  /** A drain stores its records in queue order, and all of them when no insert fails. */
  lemma {:induction false} DrainStoresInOrder(queued: seq<Record>, size: nat, now: Instant, ok: nat -> bool, i: nat)
    requires size > 0
    ensures Subsequence(Drained(queued, size, now, ok, i), Rows(queued, now))
    ensures (forall k :: k >= i ==> ok(k)) ==> Drained(queued, size, now, ok, i) == Rows(queued, now)
    decreases |queued|
  {
    hide Subsequence, Rows;
    if queued == [] {
      RowsOfNothing(now);
      NothingIsSubsequence<Record>([]);
    } else {
      var n := Min(size, |queued|);
      var rest := Drained(queued[n..], size, now, ok, i + 1);
      DrainStoresInOrder(queued[n..], size, now, ok, i + 1);
      assert queued == queued[..n] + queued[n..];
      RowsOfConcat(queued[..n], queued[n..], now);
      if ok(i) {
        BothPrefixed(rest, Rows(queued[n..], now), Rows(queued[..n], now));
      } else {
        LaterStill(rest, Rows(queued[n..], now), Rows(queued[..n], now));
        assert [] + rest == rest;
      }
    }
  }

  /** `at` lists, in order, the places of the records whose batch went, counting batches from the i-th. */
  ghost predicate ListsStored(at: seq<nat>, queued: seq<Record>, size: nat, ok: nat -> bool, i: nat)
    requires size > 0
  {
    && (forall j, k :: 0 <= j < k < |at| ==> at[j] < at[k])
    && (forall k :: 0 <= k < |at| ==> at[k] < |queued|)
    && (forall p: nat :: p < |queued| ==> (p in at <==> ok(i + p / size)))
  }

  /** A failed insert costs its own batch and nothing else: what is stored is what fell into the batches that went. */
  lemma {:induction false} DrainLosesFailedBatchesOnly(queued: seq<Record>, size: nat, now: Instant, ok: nat -> bool, i: nat)
    returns (at: seq<nat>)
    requires size > 0
    ensures ListsStored(at, queued, size, ok, i) && Picks(Drained(queued, size, now, ok, i), at, Rows(queued, now))
    decreases |queued|
  {
    hide Rows, ListsStored, Picks, Drained;
    at := [];
    if queued == [] {
      NothingStored(size, now, ok, i);
    } else {
      var n := Min(size, |queued|);
      var batch, rest := queued[..n], queued[n..];
      assert queued == batch + rest;
      var later := DrainLosesFailedBatchesOnly(rest, size, now, ok, i + 1);
      DrainedOneBatch(batch, rest, size, now, ok, i);
      at := (if ok(i) then Counted(0, n) else []) + Moved(later, n);
      StoredOneMore(batch, rest, size, ok, i, later);
      RowsOfConcat(batch, rest, now);
      PickedOneMore(Rows(batch, now), Rows(rest, now), Drained(rest, size, now, ok, i + 1), later, ok(i));
    }
  }

  lemma NothingStored(size: nat, now: Instant, ok: nat -> bool, i: nat)
    requires size > 0
    ensures ListsStored([], [], size, ok, i) && Picks(Drained([], size, now, ok, i), [], Rows([], now))
  {
  }

  lemma PickedOneMore(a: seq<Record>, b: seq<Record>, out: seq<Record>, later: seq<nat>, went: bool)
    requires Picks(out, later, b)
    ensures Picks((if went then a else []) + out, (if went then Counted(0, |a|) else []) + Moved(later, |a|), a + b)
  {
  }

  lemma StoredOneMore(batch: seq<Record>, rest: seq<Record>, size: nat, ok: nat -> bool, i: nat, later: seq<nat>)
    requires size > 0 && batch != [] && |batch| == Min(size, |batch| + |rest|) && ListsStored(later, rest, size, ok, i + 1)
    ensures ListsStored((if ok(i) then Counted(0, |batch|) else []) + Moved(later, |batch|), batch + rest, size, ok, i)
  {
    var n := |batch|;
    var front := if ok(i) then Counted(0, n) else [];
    var at := front + Moved(later, n);
    forall p: nat | p < |batch + rest| ensures p in at <==> ok(i + p / size) {
      if p < n {
        ModIs(p, 0, p, size);
        assert ok(i) ==> front[p] == p;
      } else {
        OneBatchOn(p, size);
        MovedMembers(later, n, p);
        assert p - n in later <==> ok(i + 1 + (p - n) / size);
      }
    }
  }

  lemma OneBatchOn(p: nat, size: nat)
    requires size > 0 && p >= size
    ensures p / size == 1 + (p - size) / size
  {
    var q, r := (p - size) / size, (p - size) % size;
    assert p == (1 + q) * size + r;
    ModIs(p, 1 + q, r, size);
  }

  lemma MovedMembers(at: seq<nat>, shift: nat, p: nat)
    requires p >= shift
    ensures p in Moved(at, shift) <==> p - shift in at
  {
    if p - shift in at {
      var i :| 0 <= i < |at| && at[i] == p - shift;
      assert Moved(at, shift)[i] == p;
    }
  }

  /** A submission is dropped exactly when the queue is full; either way it is stamped once, keeping a time of its own. */
  lemma DroppedExactlyWhenFull(cfg: Config, m: Machine, rec: Record, now: Instant)
    ensures (var after := Next(cfg, m, Submitting(rec, now));
             var r := Record(if rec.at == 0 then now else rec.at, rec.event);
             && (|m.queue| >= cfg.capacity ==> after.dropped == m.dropped + [r] && after.queue == m.queue)
             && (|m.queue| < cfg.capacity ==> after.dropped == m.dropped && after.queue == m.queue + [r]))
  {
  }
}
