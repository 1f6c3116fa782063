/**
 * PeriodicBatchingSink and its BatchedConnectionStatus: events are queued by
 * emit and sent in batches by a timer tick (execute). Failed sends back off
 * exponentially, and after enough failures the staged batch and then the
 * whole queue are dropped. The timer becomes the list of delays scheduled;
 * what emitBatch does is an oracle saying whether the n-th call of a tick
 * throws.
 */
module Batching {
  import opened Wrappers
  import opened Events

  /** java.time.Duration: whole seconds and a nanosecond part. */
  datatype Duration = Duration(seconds: int, nanos: nat)

  predicate IsZero(d: Duration) {
    d.seconds == 0 && d.nanos == 0
  }

  const MinimumBackoffSeconds := 5
  const MaximumBackoffSeconds := 600
  const FailuresBeforeDroppingBatch := 8
  const FailuresBeforeDroppingQueue := 10

  function Max(a: int, b: int): int {
    if a >= b then a else b
  }

  function Min(a: int, b: int): int {
    if a <= b then a else b
  }

  /** Math.pow(2, n) for the back-off factor. */
  function Pow2(n: nat): (r: nat)
    ensures r >= 1
  {
    if n == 0 then 1 else 2 * Pow2(n - 1)
  }

  /** The back-off factor outgrows the exponent, so it is unbounded in the failure count. */
  lemma {:induction false} Pow2Exceeds(n: nat)
    ensures Pow2(n) > n
  {
    if n > 0 {
      Pow2Exceeds(n - 1);
    }
  }

  /** getShouldDropBatch. */
  predicate DropBatch(failures: int) {
    failures >= FailuresBeforeDroppingBatch
  }

  /** getShouldDropQueue. */
  predicate DropQueue(failures: int) {
    failures >= FailuresBeforeDroppingQueue
  }

  /**
   * getNextInterval: the period itself for up to one failure; from the
   * second failure on, the boosted period doubled per further failure,
   * capped at ten minutes, but never below the period.
   */
  function Interval(period: Duration, failures: int): Duration {
    if failures <= 1 then period
    else
      var backoffPeriod := Max(period.seconds, MinimumBackoffSeconds);
      var backedOff := backoffPeriod * Pow2(failures - 1);
      var capped := Min(backedOff, MaximumBackoffSeconds);
      Duration(Max(period.seconds, capped), 0)
  }

  /** Dropping the queue is only ever done together with dropping the batch. */
  lemma DropQueueDropsBatch(failures: int)
    ensures DropQueue(failures) ==> DropBatch(failures)
    ensures DropBatch(failures) <==> failures >= 8
    ensures DropQueue(failures) <==> failures >= 10
  {
  }

  /** From the second failure the interval is whole seconds, between the period and max(period, 10 minutes). */
  lemma IntervalBounds(period: Duration, failures: int)
    ensures failures <= 1 ==> Interval(period, failures) == period
    ensures failures >= 2 ==>
      Interval(period, failures).nanos == 0
      && period.seconds <= Interval(period, failures).seconds <= Max(period.seconds, MaximumBackoffSeconds)
  {
  }

  lemma {:induction false} Pow2Monotone(m: nat, n: nat)
    requires m <= n
    ensures Pow2(m) <= Pow2(n)
    decreases n
  {
    if m < n {
      Pow2Monotone(m, n - 1);
    }
  }

  /** The backoff never shrinks as failures accumulate. */
  lemma IntervalMonotone(period: Duration, f: int, g: int)
    requires 2 <= f <= g
    ensures Interval(period, f).seconds <= Interval(period, g).seconds
  {
    Pow2Monotone(f - 1, g - 1);
    var bp := Max(period.seconds, MinimumBackoffSeconds);
    assert bp * Pow2(f - 1) <= bp * Pow2(g - 1);
  }

  /** With a short period the backoff starts at 10 seconds and doubles until it reaches 10 minutes. */
  lemma IntervalSchedule(period: Duration)
    requires period.seconds <= 5
    ensures Interval(period, 2).seconds == 10
    ensures Interval(period, 3).seconds == 20
    ensures Interval(period, 7).seconds == 320
    ensures forall f :: f >= 8 ==> Interval(period, f).seconds == 600
  {
    assert Pow2(6) == 64;
    forall f | f >= 8 ensures Interval(period, f).seconds == 600 {
      Pow2Monotone(7, f - 1);
      assert Pow2(7) == 128;
    }
  }

  /** BatchedConnectionStatus: the period and the count of failures since the last successful batch. */
  class ConnectionStatus {
    const period: Duration
    var failures: int

    constructor (period: Duration)
      requires !IsZero(period)
      ensures this.period == period && failures == 0
    {
      this.period := period;
      failures := 0;
    }

    /** The constructor's check: a zero period is rejected. */
    static method Create(period: Duration) returns (r: Outcome<ConnectionStatus>)
      ensures r.Thrown? <==> IsZero(period)
      ensures r.Thrown? ==> r.failure == IllegalArgument("period")
      ensures r.Ok? ==> fresh(r.value) && r.value.period == period && r.value.failures == 0
    {
      if IsZero(period) {
        return Thrown(IllegalArgument("period"));
      }
      var status := new ConnectionStatus(period);
      r := Ok(status);
    }

    method MarkSuccess()
      modifies this
      ensures failures == 0
    {
      failures := 0;
    }

    method MarkFailure()
      modifies this
      ensures failures == old(failures) + 1
    {
      failures := failures + 1;
    }

    function NextInterval(): Duration
      reads this
    {
      Interval(period, failures)
    }
  }

  // ------------------------------------------------------------ one tick

  /** The events kept by canInclude, in order. */
  function Kept(events: seq<EventData>, canInclude: EventData -> bool): (r: seq<EventData>)
    ensures |r| <= |events|
    ensures forall i :: 0 <= i < |r| ==> canInclude(r[i])
  {
    if events == [] then []
    else (if canInclude(events[0]) then [events[0]] else []) + Kept(events[1..], canInclude)
  }

  /** The events kept are exactly the events canInclude accepts. */
  lemma {:induction false} KeptMembers(events: seq<EventData>, canInclude: EventData -> bool)
    ensures forall e :: e in Kept(events, canInclude) <==> e in events && canInclude(e)
  {
    if events != [] {
      KeptMembers(events[1..], canInclude);
      assert events == [events[0]] + events[1..];
    }
  }

  /**
   * The drain loop: events leave the front of the queue while the batch is
   * below the limit; those canInclude rejects are consumed and dropped.
   */
  function Drain(queue: seq<EventData>, batch: seq<EventData>, limit: int, canInclude: EventData -> bool)
    : (r: (seq<EventData>, seq<EventData>))
    ensures |r.0| + |r.1| <= |queue| + |batch|
    decreases |queue|
  {
    if |batch| < limit && queue != [] then
      Drain(queue[1..], if canInclude(queue[0]) then batch + [queue[0]] else batch, limit, canInclude)
    else (queue, batch)
  }

  /** How many events the drain loop takes off the front of the queue. */
  function Consumed(queue: seq<EventData>, batch: seq<EventData>, limit: int, canInclude: EventData -> bool): (m: nat)
    ensures m <= |queue|
    decreases |queue|
  {
    if |batch| < limit && queue != [] then
      1 + Consumed(queue[1..], if canInclude(queue[0]) then batch + [queue[0]] else batch, limit, canInclude)
    else 0
  }

  /**
   * Draining is first-in first-out: some prefix of the queue is consumed and
   * the batch grows by the included events of that prefix; it stops only
   * when the queue is empty or the batch has reached the limit.
   */
  lemma {:induction false} DrainTakesFront(queue: seq<EventData>, batch: seq<EventData>, limit: int, canInclude: EventData -> bool)
    ensures Drain(queue, batch, limit, canInclude)
      == (queue[Consumed(queue, batch, limit, canInclude)..], batch + Kept(queue[..Consumed(queue, batch, limit, canInclude)], canInclude))
    decreases |queue|
  {
    if |batch| < limit && queue != [] {
      var head := if canInclude(queue[0]) then [queue[0]] else [];
      var rest := queue[1..];
      var m := Consumed(rest, batch + head, limit, canInclude);
      var k := Kept(rest[..m], canInclude);
      assert (batch + head) + k == batch + (head + k);
      DrainTakesFront(rest, batch + head, limit, canInclude);
      assert batch + head == (if canInclude(queue[0]) then batch + [queue[0]] else batch);
      assert rest[m..] == queue[m + 1..];
      KeptFront(queue, m, canInclude);
    } else {
      assert queue[..0] == [] && Kept([], canInclude) == [];
      assert queue[0..] == queue && batch + [] == batch;
    }
  }

  /** Keeping from the first m + 1 events is keeping the first, if included, then from the next m. */
  lemma KeptFront(queue: seq<EventData>, m: nat, canInclude: EventData -> bool)
    requires m < |queue|
    ensures Kept(queue[..m + 1], canInclude)
      == (if canInclude(queue[0]) then [queue[0]] else []) + Kept(queue[1..][..m], canInclude)
  {
    assert queue[..m + 1][1..] == queue[1..][..m];
  }

  /** The drain stops only at an empty queue or a batch at the limit, and never fills a batch past the limit. */
  lemma {:induction false} DrainStops(queue: seq<EventData>, batch: seq<EventData>, limit: int, canInclude: EventData -> bool)
    ensures Drain(queue, batch, limit, canInclude).0 == [] || |Drain(queue, batch, limit, canInclude).1| >= limit
    ensures |batch| < limit ==> |Drain(queue, batch, limit, canInclude).1| <= limit
    ensures |batch| >= limit ==> Drain(queue, batch, limit, canInclude) == (queue, batch)
    decreases |queue|
  {
    if |batch| < limit && queue != [] {
      DrainStops(queue[1..], if canInclude(queue[0]) then batch + [queue[0]] else batch, limit, canInclude);
    }
  }

  /**
   * What emitBatch does on the n-th call of a tick with the given batch:
   * None when it returns, otherwise what it throws.
   */
  type BatchEmitter = (nat, seq<EventData>) -> Option<Failure>

  /** An Error, which `catch (Exception)` does not catch; StackOverflowError is the one the model has. */
  predicate IsError(f: Failure) {
    f.StackOverflow?
  }

  /**
   * What the cycles of one tick leave behind, every batch handed to
   * emitBatch, and the Error that escaped, if any.
   */
  datatype Tick = Tick(queue: seq<EventData>, batch: seq<EventData>, failures: int, attempts: seq<seq<EventData>>,
                       error: Option<Failure>)

  /**
   * The do/while of execute from the n-th cycle on: drain; an empty batch
   * ends the tick; otherwise emitBatch. An Exception counts one failure and
   * keeps the batch staged; an Error also keeps it staged, counts nothing and
   * leaves the tick; a success clears the batch, resets the failures and
   * goes round again only when the batch was exactly full.
   */
  function Cycles(queue: seq<EventData>, batch: seq<EventData>, failures: int, limit: int,
                  canInclude: EventData -> bool, emit: BatchEmitter, n: nat): (t: Tick)
    decreases |queue| + |batch|
  {
    var (q, b) := Drain(queue, batch, limit, canInclude);
    if b == [] then Tick(q, b, failures, [], None)
    else if emit(n, b).Some? then
      if IsError(emit(n, b).value) then Tick(q, b, failures, [b], emit(n, b))
      else Tick(q, b, failures + 1, [b], None)
    else if |b| == limit then
      var rest := Cycles(q, [], 0, limit, canInclude, emit, n + 1);
      rest.(attempts := [b] + rest.attempts)
    else Tick(q, [], 0, [b], None)
  }

  /**
   * A tick counts at most one failure, a failure only when the last batch
   * handed over threw an Exception; when it threw an Error the count is left
   * as it stood and the Error escapes. Either way that batch stays staged.
   * Otherwise the tick ends with no staged batch and a count that is reset,
   * or untouched when nothing was sent.
   */
  lemma {:induction false} CyclesOutcome(queue: seq<EventData>, batch: seq<EventData>, failures: int, limit: int,
                                         canInclude: EventData -> bool, emit: BatchEmitter, n: nat)
    ensures var t := Cycles(queue, batch, failures, limit, canInclude, emit, n);
      (t.attempts == [] ==> t.failures == failures && t.batch == [] && t.error.None?)
      && (t.attempts != [] ==>
        var before := if |t.attempts| == 1 then failures else 0;
        (t.failures == 0 && t.batch == [] && t.error.None?)
        || (t.failures == 1 + before && t.batch == t.attempts[|t.attempts| - 1] && t.error.None?)
        || (t.failures == before && t.batch == t.attempts[|t.attempts| - 1] && t.error.Some? && IsError(t.error.value)))
      && (forall i :: 0 <= i < |t.attempts| ==> t.attempts[i] != [])
    decreases |queue| + |batch|
  {
    var (q, b) := Drain(queue, batch, limit, canInclude);
    if b != [] && emit(n, b).None? && |b| == limit {
      CyclesOutcome(q, [], 0, limit, canInclude, emit, n + 1);
    }
  }

  /** Every full batch handed over before the last one was exactly `limit` events, the last one at most that. */
  lemma {:induction false} CyclesBatchSizes(queue: seq<EventData>, batch: seq<EventData>, failures: int, limit: int,
                                            canInclude: EventData -> bool, emit: BatchEmitter, n: nat)
    requires |batch| <= limit
    ensures forall i :: 0 <= i < |Cycles(queue, batch, failures, limit, canInclude, emit, n).attempts| ==>
      BatchFits(Cycles(queue, batch, failures, limit, canInclude, emit, n).attempts, i, limit)
    decreases |queue| + |batch|
  {
    var (q, b) := Drain(queue, batch, limit, canInclude);
    DrainStops(queue, batch, limit, canInclude);
    assert |b| <= limit;
    if b != [] && emit(n, b).None? && |b| == limit {
      CyclesBatchSizes(q, [], 0, limit, canInclude, emit, n + 1);
      var rest := Cycles(q, [], 0, limit, canInclude, emit, n + 1);
      var all := [b] + rest.attempts;
      forall i | 0 <= i < |all| ensures BatchFits(all, i, limit) {
        if i > 0 {
          assert BatchFits(rest.attempts, i - 1, limit);
          assert all[i] == rest.attempts[i - 1];
        }
      }
    }
  }

  /** The i-th batch of a tick is within the limit, and exactly at it unless it is the last. */
  predicate BatchFits(attempts: seq<seq<EventData>>, i: nat, limit: int)
    requires i < |attempts|
  {
    |attempts[i]| <= limit && (i < |attempts| - 1 ==> |attempts[i]| == limit)
  }

  /** The batches of a tick one after another. */
  function Concat(batches: seq<seq<EventData>>): seq<EventData> {
    if batches == [] then [] else batches[0] + Concat(batches[1..])
  }

  /** Keeping distributes over concatenation. */
  lemma {:induction false} KeptAppend(a: seq<EventData>, b: seq<EventData>, canInclude: EventData -> bool)
    ensures Kept(a + b, canInclude) == Kept(a, canInclude) + Kept(b, canInclude)
  {
    if a == [] {
      assert a + b == b;
    } else {
      assert (a + b)[1..] == a[1..] + b;
      KeptAppend(a[1..], b, canInclude);
    }
  }

  /**
   * A tick is first-in first-out across all its cycles: it polls a prefix of
   * the queue, leaves the rest queued, and the batches it hands to emitBatch,
   * one after another, are the staged batch followed by the events of that
   * prefix canInclude accepts, in queue order. (A batch that threw is the
   * last one handed over and is the one left staged.)
   */
  lemma {:induction false} CyclesTakeFront(queue: seq<EventData>, batch: seq<EventData>, failures: int, limit: int,
                                           canInclude: EventData -> bool, emit: BatchEmitter, n: nat)
    ensures TakesFront(queue, batch, Cycles(queue, batch, failures, limit, canInclude, emit, n), canInclude)
    decreases |queue| + |batch|
  {
    var d := Drain(queue, batch, limit, canInclude);
    if d.1 != [] && emit(n, d.1).None? && |d.1| == limit {
      CyclesTakeFront(d.0, [], 0, limit, canInclude, emit, n + 1);
      FullCycleTakesFront(queue, batch, failures, limit, canInclude, emit, n);
    } else {
      LastCycleTakesFront(queue, batch, failures, limit, canInclude, emit, n);
    }
  }

  /**
   * What is left queued after tick `t` is a suffix of `queue`, and the batches
   * `t` handed over, one after another, are `batch` followed by the events of
   * the polled prefix that canInclude accepts.
   */
  predicate TakesFront(queue: seq<EventData>, batch: seq<EventData>, t: Tick, canInclude: EventData -> bool) {
    |t.queue| <= |queue| && t.queue == queue[|queue| - |t.queue|..]
    && batch + Kept(queue[..|queue| - |t.queue|], canInclude) == Concat(t.attempts)
  }

  /** A full accepted batch followed by a tick that takes from the front of the rest takes from the front. */
  lemma FullCycleTakesFront(queue: seq<EventData>, batch: seq<EventData>, failures: int, limit: int,
                            canInclude: EventData -> bool, emit: BatchEmitter, n: nat)
    requires var d := Drain(queue, batch, limit, canInclude); d.1 != [] && emit(n, d.1).None? && |d.1| == limit
    requires var d := Drain(queue, batch, limit, canInclude);
      TakesFront(d.0, [], Cycles(d.0, [], 0, limit, canInclude, emit, n + 1), canInclude)
    ensures TakesFront(queue, batch, Cycles(queue, batch, failures, limit, canInclude, emit, n), canInclude)
  {
    var d := Drain(queue, batch, limit, canInclude);
    DrainTakesFront(queue, batch, limit, canInclude);
    var rest := Cycles(d.0, [], 0, limit, canInclude, emit, n + 1);
    CyclesFull(queue, batch, failures, limit, canInclude, emit, n);
    TakeFrontStep(queue, batch, d.1, Consumed(queue, batch, limit, canInclude), rest.queue, rest.attempts, canInclude);
  }

  /** The tick's last cycle takes from the front of the queue. */
  lemma LastCycleTakesFront(queue: seq<EventData>, batch: seq<EventData>, failures: int, limit: int,
                            canInclude: EventData -> bool, emit: BatchEmitter, n: nat)
    requires var d := Drain(queue, batch, limit, canInclude); !(d.1 != [] && emit(n, d.1).None? && |d.1| == limit)
    ensures TakesFront(queue, batch, Cycles(queue, batch, failures, limit, canInclude, emit, n), canInclude)
  {
    var d := Drain(queue, batch, limit, canInclude);
    DrainTakesFront(queue, batch, limit, canInclude);
    CyclesLast(queue, batch, failures, limit, canInclude, emit, n);
    TakeFrontLast(queue, batch, d.1, Consumed(queue, batch, limit, canInclude), canInclude);
  }

  /** A full batch that emitBatch accepted: the tick goes on with the rest of the queue. */
  lemma CyclesFull(queue: seq<EventData>, batch: seq<EventData>, failures: int, limit: int,
                   canInclude: EventData -> bool, emit: BatchEmitter, n: nat)
    requires var d := Drain(queue, batch, limit, canInclude); d.1 != [] && emit(n, d.1).None? && |d.1| == limit
    ensures var d := Drain(queue, batch, limit, canInclude);
      var rest := Cycles(d.0, [], 0, limit, canInclude, emit, n + 1);
      Cycles(queue, batch, failures, limit, canInclude, emit, n) == rest.(attempts := [d.1] + rest.attempts)
  {
  }

  /** Any other cycle is the tick's last: the drained batch, if any, is the one batch handed over. */
  lemma CyclesLast(queue: seq<EventData>, batch: seq<EventData>, failures: int, limit: int,
                   canInclude: EventData -> bool, emit: BatchEmitter, n: nat)
    requires var d := Drain(queue, batch, limit, canInclude); !(d.1 != [] && emit(n, d.1).None? && |d.1| == limit)
    ensures var d := Drain(queue, batch, limit, canInclude);
      var t := Cycles(queue, batch, failures, limit, canInclude, emit, n);
      t.queue == d.0 && t.attempts == (if d.1 == [] then [] else [d.1])
  {
  }

  /** The tick's last cycle takes from the front of the queue: what is left is a suffix of it. */
  lemma TakeFrontLast(queue: seq<EventData>, batch: seq<EventData>, b: seq<EventData>, m: nat, canInclude: EventData -> bool)
    requires m <= |queue| && b == batch + Kept(queue[..m], canInclude)
    ensures |queue[m..]| <= |queue| && queue[m..] == queue[|queue| - |queue[m..]|..]
    ensures batch + Kept(queue[..|queue| - |queue[m..]|], canInclude) == Concat(if b == [] then [] else [b])
  {
    assert |queue| - |queue[m..]| == m;
    assert [b][1..] == [];
  }

  /** One full cycle followed by the rest of the tick still takes from the front of the queue. */
  lemma TakeFrontStep(queue: seq<EventData>, batch: seq<EventData>, b: seq<EventData>, m: nat,
                      left: seq<EventData>, attempts: seq<seq<EventData>>, canInclude: EventData -> bool)
    requires m <= |queue| && b == batch + Kept(queue[..m], canInclude)
    requires |left| <= |queue| - m && left == queue[m..][|queue| - m - |left|..]
    requires Kept(queue[m..][..|queue| - m - |left|], canInclude) == Concat(attempts)
    ensures |left| <= |queue| && left == queue[|queue| - |left|..]
    ensures batch + Kept(queue[..|queue| - |left|], canInclude) == Concat([b] + attempts)
  {
    var q := queue[m..];
    var m' := |q| - |left|;
    assert queue[..m + m'] == queue[..m] + q[..m'];
    KeptAppend(queue[..m], q[..m'], canInclude);
    assert ([b] + attempts)[1..] == attempts;
  }

  /** The state after execute's finally block: drops by the failure count. */
  function Finished(t: Tick): (r: Tick)
    ensures r.failures == t.failures && r.attempts == t.attempts && r.error == t.error
    ensures r.batch == (if DropBatch(t.failures) then [] else t.batch)
    ensures r.queue == (if DropQueue(t.failures) then [] else t.queue)
  {
    t.(batch := if DropBatch(t.failures) then [] else t.batch,
       queue := if DropQueue(t.failures) then [] else t.queue)
  }

  class PeriodicBatchingSink {
    const batchSizeLimit: int
    const canInclude: EventData -> bool
    const status: ConnectionStatus
    var queue: seq<EventData>
    var waitingBatch: seq<EventData>
    var unloading: bool
    /** The delays the timer was set to, oldest first. */
    var timers: seq<Duration>

    /** The constructor with a period that was checked: the first timer is set to the period. */
    constructor (batchSizeLimit: int, status: ConnectionStatus, canInclude: EventData -> bool)
      requires status.failures == 0
      ensures this.batchSizeLimit == batchSizeLimit && this.status == status && this.canInclude == canInclude
      ensures queue == [] && waitingBatch == [] && !unloading && timers == [status.period]
    {
      this.batchSizeLimit := batchSizeLimit;
      this.status := status;
      this.canInclude := canInclude;
      queue, waitingBatch, unloading := [], [], false;
      timers := [status.NextInterval()];
    }

    /** PeriodicBatchingSink(batchSizeLimit, period): a zero period is rejected by the status it builds. */
    static method Create(batchSizeLimit: int, period: Duration, canInclude: EventData -> bool)
      returns (r: Outcome<PeriodicBatchingSink>)
      ensures r.Thrown? <==> IsZero(period)
      ensures r.Thrown? ==> r.failure == IllegalArgument("period")
      ensures r.Ok? ==>
        && fresh(r.value) && fresh(r.value.status) && r.value.batchSizeLimit == batchSizeLimit
        && r.value.queue == [] && r.value.waitingBatch == [] && !r.value.unloading && r.value.timers == [period]
        && r.value.status.failures == 0 && r.value.status.period == period
    {
      var status := ConnectionStatus.Create(period);
      if status.Thrown? {
        return Thrown(status.failure);
      }
      var sink := new PeriodicBatchingSink(batchSizeLimit, status.value, canInclude);
      r := Ok(sink);
    }

    /** emit: queued at the back, unless the sink is closing. */
    method Emit(e: EventData)
      modifies this
      ensures queue == (if old(unloading) then old(queue) else old(queue) + [e])
      ensures waitingBatch == old(waitingBatch) && unloading == old(unloading) && timers == old(timers)
    {
      if unloading {
        return;
      }
      queue := queue + [e];
    }

    /**
     * execute: the cycles of one tick, then the drops by failure count, then
     * the next timer unless the sink is closing, whether or not an Error
     * escapes. Returns each batch handed to emitBatch and the escaping Error.
     */
    method Execute(emit: BatchEmitter) returns (attempts: seq<seq<EventData>>, error: Option<Failure>)
      modifies this, status
      ensures var t := Finished(Cycles(old(queue), old(waitingBatch), old(status.failures), batchSizeLimit, canInclude, emit, 0));
        attempts == t.attempts && queue == t.queue && waitingBatch == t.batch && status.failures == t.failures
        && error == t.error
      ensures unloading == old(unloading)
      ensures timers == old(timers) + (if unloading then [] else [status.NextInterval()])
    {
      attempts, error := RunCycles(emit);
      if DropBatch(status.failures) {
        waitingBatch := [];
      }
      if DropQueue(status.failures) {
        queue := [];
      }
      if !unloading {
        timers := timers + [status.NextInterval()];
      }
    }

    /** The try block of execute: the do/while of drain and emitBatch. */
    method RunCycles(emit: BatchEmitter) returns (attempts: seq<seq<EventData>>, error: Option<Failure>)
      modifies this, status
      ensures var t := Cycles(old(queue), old(waitingBatch), old(status.failures), batchSizeLimit, canInclude, emit, 0);
        attempts == t.attempts && queue == t.queue && waitingBatch == t.batch && status.failures == t.failures
        && error == t.error
      ensures unloading == old(unloading) && timers == old(timers)
    {
      ghost var goal := Cycles(queue, waitingBatch, status.failures, batchSizeLimit, canInclude, emit, 0);
      attempts, error := [], None;
      var n := 0;
      while true
        invariant goal == Cycles(queue, waitingBatch, status.failures, batchSizeLimit, canInclude, emit, n)
          .(attempts := attempts + Cycles(queue, waitingBatch, status.failures, batchSizeLimit, canInclude, emit, n).attempts)
        invariant error.None?
        invariant unloading == old(unloading) && timers == old(timers)
        decreases |queue| + |waitingBatch|
      {
        DrainLoop();
        var batch := waitingBatch;
        if |batch| == 0 {
          break;
        }
        attempts := attempts + [batch];
        var thrown := emit(n, batch);
        if thrown.Some? {
          if IsError(thrown.value) {
            error := thrown;
          } else {
            status.MarkFailure();
          }
          break;
        }
        var batchWasFull := |batch| == batchSizeLimit;
        waitingBatch := [];
        status.MarkSuccess();
        if !batchWasFull {
          break;
        }
        n := n + 1;
      }
    }

    /** The inner while of execute: move events from the queue into the staged batch. */
    method DrainLoop()
      modifies this
      ensures (queue, waitingBatch) == Drain(old(queue), old(waitingBatch), batchSizeLimit, canInclude)
      ensures unloading == old(unloading) && timers == old(timers)
    {
      while |waitingBatch| < batchSizeLimit && queue != []
        invariant Drain(queue, waitingBatch, batchSizeLimit, canInclude) == Drain(old(queue), old(waitingBatch), batchSizeLimit, canInclude)
        invariant unloading == old(unloading) && timers == old(timers)
        decreases |queue|
      {
        var next := queue[0];
        queue := queue[1..];
        if canInclude(next) {
          waitingBatch := waitingBatch + [next];
        }
      }
    }

    /**
     * close: the first call marks the sink as closing and runs one final
     * tick, which sets no timer; later calls do nothing.
     */
    method Close(emit: BatchEmitter) returns (attempts: seq<seq<EventData>>, error: Option<Failure>)
      modifies this, status
      ensures unloading && timers == old(timers)
      ensures old(unloading) ==>
        && attempts == [] && error.None? && queue == old(queue) && waitingBatch == old(waitingBatch)
        && status.failures == old(status.failures)
      ensures !old(unloading) ==>
        var t := Finished(Cycles(old(queue), old(waitingBatch), old(status.failures), batchSizeLimit, canInclude, emit, 0));
        attempts == t.attempts && queue == t.queue && waitingBatch == t.batch && status.failures == t.failures
        && error == t.error
    {
      if unloading {
        return [], None;
      }
      unloading := true;
      attempts, error := Execute(emit);
    }
  }
}
