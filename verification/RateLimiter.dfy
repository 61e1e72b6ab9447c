/**
 A FIFO scheduler with a concurrency cap, a minimum spacing between starts, a
 cool-down window and one coalesced pump timer (src/services/rateLimiter.ts).

 `State` is the limiter's fields plus what the JavaScript runtime keeps for it: the
 clock, the one pending timer, the promises in flight, and a log of what happened.
 Every step is a total function; a step that the runtime could not take leaves the
 state alone, so a run is any sequence of steps and a theorem about `Exec` speaks
 about every interleaving.
 */
module RateLimiter {
  import opened Common

  datatype Options = Options(maxConcurrent: int, minTimeMs: int, maxQueueSize: int, jitterMs: int)

  predicate ValidOptions(o: Options) {
    o.maxConcurrent >= 1 && o.minTimeMs >= 0 && o.maxQueueSize >= 1 && o.jitterMs >= 0
  }

  datatype OptionError = BadMaxConcurrent | BadMinTime | BadMaxQueueSize | BadTaskTimeout | BadJitter

  /** A JavaScript number. */
  datatype Num = Finite(value: int) | NotFinite

  /** The options as the caller gives them. */
  datatype RawOptions = RawOptions(
    maxConcurrent: Num,
    minTimeMs: Num,
    maxQueueSize: Option<Num>,
    defaultTaskTimeoutMs: Option<Num>,
    jitterMs: Option<Num>)

  predicate AtLeast(n: Num, bound: int) {
    n.Finite? && n.value >= bound
  }

  predicate AbsentOrAtLeast(n: Option<Num>, bound: int) {
    n.None? || AtLeast(n.value, bound)
  }

  /** The first failing check of the constructor, in its order. */
  function CheckOptions(r: RawOptions): Option<OptionError> {
    if !AtLeast(r.maxConcurrent, 1) then Some(BadMaxConcurrent)
    else if !AtLeast(r.minTimeMs, 0) then Some(BadMinTime)
    else if !AbsentOrAtLeast(r.maxQueueSize, 1) then Some(BadMaxQueueSize)
    else if !AbsentOrAtLeast(r.defaultTaskTimeoutMs, 1) then Some(BadTaskTimeout)
    else if !AbsentOrAtLeast(r.jitterMs, 0) then Some(BadJitter)
    else None
  }

  /** The check named fails, and all checks before it pass. */
  predicate FirstFailing(r: RawOptions, e: OptionError) {
    match e
    case BadMaxConcurrent => !AtLeast(r.maxConcurrent, 1)
    case BadMinTime => AtLeast(r.maxConcurrent, 1) && !AtLeast(r.minTimeMs, 0)
    case BadMaxQueueSize =>
      AtLeast(r.maxConcurrent, 1) && AtLeast(r.minTimeMs, 0) && !AbsentOrAtLeast(r.maxQueueSize, 1)
    case BadTaskTimeout =>
      && AtLeast(r.maxConcurrent, 1) && AtLeast(r.minTimeMs, 0) && AbsentOrAtLeast(r.maxQueueSize, 1)
      && !AbsentOrAtLeast(r.defaultTaskTimeoutMs, 1)
    case BadJitter =>
      && AtLeast(r.maxConcurrent, 1) && AtLeast(r.minTimeMs, 0) && AbsentOrAtLeast(r.maxQueueSize, 1)
      && AbsentOrAtLeast(r.defaultTaskTimeoutMs, 1) && !AbsentOrAtLeast(r.jitterMs, 0)
  }

  function Resolve(r: RawOptions): (o: Options)
    requires CheckOptions(r).None?
    ensures ValidOptions(o)
  {
    Options(r.maxConcurrent.value, r.minTimeMs.value,
            if r.maxQueueSize.None? then 1000 else r.maxQueueSize.value.value,
            if r.jitterMs.None? then 0 else r.jitterMs.value.value)
  }

  datatype Event =
    | Overflowed
    | Issued(id: nat)
    | Cancelled(id: nat)
    | CooledDown(until: int)
    | Started(id: nat, at: int)
    | Finished(id: nat)

  datatype State = State(
    now: int,
    queue: seq<nat>,
    running: set<nat>,      // started, promise still open
    releasing: set<nat>,    // promise settled, slot not yet given back
    settled: set<nat>,
    activeCount: int,
    lastRunAt: int,
    cooldownUntil: int,
    pumpDue: Option<int>,   // the pending timer; `pumpScheduled` is `pumpDue.Some?`
    pumping: bool,          // between two iterations of the pump loop
    nextTaskId: nat,
    log: seq<Event>)

  datatype Step =
    | Tick(to: int)
    | Schedule(aborted: bool)
    | AbortQueued(id: nat)
    | CoolDown(ms: int)
    | FirePump(startedAt: int, jitter: int)
    | PumpIteration(startedAt: int, jitter: int)
    | Settle(id: nat)
    | Release(id: nat)

  function Init(now: nat): State {
    State(now, [], {}, {}, {}, 0, 0, 0, None, false, 1, [])
  }

  // ---------- the steps ----------

  function OnTick(s: State, to: int): State {
    if to < s.now then s else s.(now := to)
  }

  /** Requests made while a pump is pending are dropped. */
  function SchedulePump(s: State, delayMs: int): State {
    if s.pumpDue.Some? then s else s.(pumpDue := Some(s.now + Max(0, delayMs)))
  }

  function OnSchedule(o: Options, s: State, aborted: bool): State {
    if |s.queue| >= o.maxQueueSize then
      s.(log := s.log + [Overflowed])
    else if aborted then
      s.(nextTaskId := s.nextTaskId + 1,
         settled := s.settled + {s.nextTaskId},
         log := s.log + [Issued(s.nextTaskId)] + [Cancelled(s.nextTaskId)])
    else
      SchedulePump(s.(nextTaskId := s.nextTaskId + 1,
                      queue := s.queue + [s.nextTaskId],
                      log := s.log + [Issued(s.nextTaskId)]), 0)
  }

  function RemoveFromQueue(q: seq<nat>, id: nat): (r: seq<nat>)
    ensures |r| == if id in q then |q| - 1 else |q|
  {
    if q == [] then []
    else if q[0] == id then q[1..]
    else [q[0]] + RemoveFromQueue(q[1..], id)
  }

  function OnAbort(s: State, id: nat): State {
    if id in s.settled || id !in s.queue then s
    else s.(queue := RemoveFromQueue(s.queue, id),
            settled := s.settled + {id},
            log := s.log + [Cancelled(id)])
  }

  function OnCoolDown(s: State, ms: int): State {
    if ms <= 0 then s
    else
      var target := s.now + ms;
      SchedulePump(s.(cooldownUntil := Max(s.cooldownUntil, target), log := s.log + [CooledDown(target)]), ms)
  }

  function SpacingWait(o: Options, s: State): int {
    Max(0, o.minTimeMs - (s.now - s.lastRunAt))
  }

  /** One trip round the pump's loop. `startedAt` is the second clock reading, taken
      when the task is started. */
  function Iterate(o: Options, s: State, startedAt: int, jitter: int): State {
    if s.queue == [] || s.activeCount >= o.maxConcurrent then
      s.(pumping := false)
    else if s.cooldownUntil > s.now then
      SchedulePump(s, s.cooldownUntil - s.now).(pumping := false)
    else if SpacingWait(o, s) + jitter > 0 then
      SchedulePump(s, SpacingWait(o, s) + jitter).(pumping := false)
    else
      var next := s.queue[0];
      if next in s.settled then s.(queue := s.queue[1..], pumping := true)
      else s.(now := startedAt,
              queue := s.queue[1..],
              running := s.running + {next},
              activeCount := s.activeCount + 1,
              lastRunAt := startedAt,
              pumping := true,
              log := s.log + [Started(next, startedAt)])
  }

  predicate FireEnabled(o: Options, s: State, startedAt: int, jitter: int) {
    !s.pumping && s.pumpDue.Some? && s.pumpDue.value <= s.now <= startedAt && 0 <= jitter <= o.jitterMs
  }

  predicate IterationEnabled(o: Options, s: State, startedAt: int, jitter: int) {
    s.pumping && s.now <= startedAt && 0 <= jitter <= o.jitterMs
  }

  function OnFirePump(o: Options, s: State, startedAt: int, jitter: int): State {
    if FireEnabled(o, s, startedAt, jitter) then Iterate(o, s.(pumpDue := None), startedAt, jitter) else s
  }

  function OnPumpIteration(o: Options, s: State, startedAt: int, jitter: int): State {
    if IterationEnabled(o, s, startedAt, jitter) then Iterate(o, s, startedAt, jitter) else s
  }

  function OnSettle(s: State, id: nat): State {
    if id !in s.running then s
    else s.(running := s.running - {id},
            releasing := s.releasing + {id},
            settled := s.settled + {id},
            log := s.log + [Finished(id)])
  }

  function OnRelease(s: State, id: nat): State {
    if id !in s.releasing then s
    else SchedulePump(s.(releasing := s.releasing - {id}, activeCount := Max(0, s.activeCount - 1)), 0)
  }

  function Next(o: Options, s: State, step: Step): State {
    match step
    case Tick(to) => OnTick(s, to)
    case Schedule(aborted) => OnSchedule(o, s, aborted)
    case AbortQueued(id) => OnAbort(s, id)
    case CoolDown(ms) => OnCoolDown(s, ms)
    case FirePump(startedAt, jitter) => OnFirePump(o, s, startedAt, jitter)
    case PumpIteration(startedAt, jitter) => OnPumpIteration(o, s, startedAt, jitter)
    case Settle(id) => OnSettle(s, id)
    case Release(id) => OnRelease(s, id)
  }

  function Exec(o: Options, s: State, steps: seq<Step>): State
    decreases |steps|
  {
    if steps == [] then s else Exec(o, Next(o, s, steps[0]), steps[1..])
  }

  // ---------- what every step keeps ----------

  ghost predicate Increasing(q: seq<nat>) {
    forall i, j :: 0 <= i < j < |q| ==> q[i] < q[j]
  }

  /** The ids handed out so far are split between queued, running and settled tasks. */
  ghost predicate Partition(queue: seq<nat>, running: set<nat>, settled: set<nat>, nextTaskId: nat) {
    && Increasing(queue)
    && (forall id: nat :: 1 <= id < nextTaskId <==> id in queue || id in running || id in settled)
    && (forall id :: id in queue ==> id !in running && id !in settled)
    && running !! settled
  }

  /** `activeCount` counts exactly the tasks that hold a slot. */
  ghost predicate Conserved(s: State) {
    && Partition(s.queue, s.running, s.settled, s.nextTaskId)
    && s.releasing <= s.settled
    && s.activeCount == |s.running| + |s.releasing|
    && s.nextTaskId >= 1
  }

  ghost predicate WithinCapacity(o: Options, s: State) {
    s.activeCount <= o.maxConcurrent && |s.queue| <= o.maxQueueSize
  }

  /** Work that could start has a pump coming, and not later than needed. */
  ghost predicate Awake(o: Options, s: State) {
    && (!s.pumping && s.queue != [] && s.activeCount < o.maxConcurrent ==> s.pumpDue.Some?)
    && (s.pumpDue.Some? ==> s.pumpDue.value <= EarliestStart(o, s) + o.jitterMs)
  }

  function EarliestStart(o: Options, s: State): int {
    Max(s.now, Max(s.cooldownUntil, s.lastRunAt + o.minTimeMs))
  }

  predicate Settles(e: Event, id: nat) {
    e == Cancelled(id) || e == Finished(id)
  }

  /** What the log of a whole run must satisfy. */
  ghost predicate SafeLog(o: Options, log: seq<Event>) {
    && (forall i, j :: 0 <= i < j < |log| && log[i].Started? && log[j].Started? ==>
          log[i].id < log[j].id && log[i].at + o.minTimeMs <= log[j].at)
    && (forall i, j :: 0 <= i < j < |log| && log[i].CooledDown? && log[j].Started? ==>
          log[i].until <= log[j].at)
    && (forall i, j, id :: 0 <= i < j < |log| && Settles(log[i], id) ==> !Settles(log[j], id))
    && (forall i, j :: 0 <= i < j < |log| && log[j].Started? ==> !Settles(log[i], log[j].id))
  }

  /** Every start so far is earlier than the last one recorded and has a smaller id
      than anything still queued. */
  ghost predicate StartBounds(s: State) {
    && s.lastRunAt <= s.now
    && (forall i :: 0 <= i < |s.log| && s.log[i].Started? ==> s.log[i].at <= s.lastRunAt && s.log[i].id < s.nextTaskId)
    && (forall i, q :: 0 <= i < |s.log| && s.log[i].Started? && 0 <= q < |s.queue| ==> s.log[i].id < s.queue[q])
  }

  ghost predicate CoolDownBounds(s: State) {
    forall i :: 0 <= i < |s.log| && s.log[i].CooledDown? ==> s.log[i].until <= s.cooldownUntil
  }

  ghost function SettledIds(log: seq<Event>): set<nat> {
    if log == [] then {}
    else
      var e := log[|log| - 1];
      SettledIds(log[..|log| - 1]) + (if e.Cancelled? || e.Finished? then {e.id} else {})
  }

  ghost predicate SettleBounds(s: State) {
    && SettledIds(s.log) == s.settled
    && (forall i, id :: 0 <= i < |s.log| && Settles(s.log[i], id) ==> id in s.settled)
  }

  ghost predicate Inv(o: Options, s: State) {
    Conserved(s) && WithinCapacity(o, s) && Awake(o, s) && LogInv(o, s)
  }

  // ---------- preservation ----------

  lemma {:induction false} TailIncreasing(q: seq<nat>)
    requires Increasing(q) && q != []
    ensures Increasing(q[1..]) && forall x :: x in q <==> x == q[0] || x in q[1..]
    ensures forall x :: x in q[1..] ==> q[0] < x
  {
    var tail := q[1..];
    assert q == [q[0]] + tail;
    forall k | 0 <= k < |tail|
      ensures q[0] < tail[k]
    {
      assert tail[k] == q[k + 1];
    }
  }

  lemma {:induction false} PutFirst(x: nat, r: seq<nat>)
    requires Increasing(r) && forall y :: y in r ==> x < y
    ensures Increasing([x] + r) && forall y :: y in [x] + r <==> y == x || y in r
  {
    var full := [x] + r;
    forall i, j | 0 <= i < j < |full|
      ensures full[i] < full[j]
    {
      assert full[j] == r[j - 1] && r[j - 1] in r;
    }
  }

  lemma {:induction false} RemoveKeeps(q: seq<nat>, id: nat)
    requires Increasing(q) && id in q
    ensures Increasing(RemoveFromQueue(q, id))
    ensures forall x :: x in RemoveFromQueue(q, id) <==> x in q && x != id
  {
    TailIncreasing(q);
    hide Increasing;
    if q[0] != id {
      RemoveKeeps(q[1..], id);
      PutFirst(q[0], RemoveFromQueue(q[1..], id));
    }
  }

  lemma {:induction false} PopQueue(queue: seq<nat>, running: set<nat>, settled: set<nat>, n: nat)
    requires Partition(queue, running, settled, n) && queue != []
    ensures Partition(queue[1..], running + {queue[0]}, settled, n)
    ensures queue[0] !in running && queue[0] !in settled
  {
    TailIncreasing(queue);
  }

  lemma {:induction false} PushQueue(queue: seq<nat>, running: set<nat>, settled: set<nat>, n: nat)
    requires Partition(queue, running, settled, n) && n >= 1
    ensures Partition(queue + [n], running, settled, n + 1)
    ensures Partition(queue, running, settled + {n}, n + 1)
  {
    forall k | 0 <= k < |queue|
      ensures queue[k] < n
    {
      assert queue[k] in queue;
    }
  }

  lemma {:induction false} CancelQueued(queue: seq<nat>, running: set<nat>, settled: set<nat>, n: nat, id: nat)
    requires Partition(queue, running, settled, n) && id in queue
    ensures Partition(RemoveFromQueue(queue, id), running, settled + {id}, n)
  {
    RemoveKeeps(queue, id);
  }

  lemma {:induction false} FinishRunning(queue: seq<nat>, running: set<nat>, settled: set<nat>, n: nat, id: nat)
    requires Partition(queue, running, settled, n) && id in running
    ensures Partition(queue, running - {id}, settled + {id}, n)
  {}

  lemma {:induction false} IterateKeepsConserved(o: Options, s: State, startedAt: int, jitter: int)
    requires Conserved(s)
    ensures Conserved(Iterate(o, s, startedAt, jitter))
  {
    hide Partition;
    if s.queue != [] {
      PopQueue(s.queue, s.running, s.settled, s.nextTaskId);
      assert |s.running + {s.queue[0]}| == |s.running| + 1;
    }
  }

  lemma {:induction false} ScheduleKeepsConserved(o: Options, s: State, aborted: bool)
    requires Conserved(s)
    ensures Conserved(OnSchedule(o, s, aborted))
  {
    hide Partition;
    PushQueue(s.queue, s.running, s.settled, s.nextTaskId);
  }

  lemma {:induction false} AbortKeepsConserved(s: State, id: nat)
    requires Conserved(s)
    ensures Conserved(OnAbort(s, id))
  {
    hide Partition;
    if id in s.queue {
      CancelQueued(s.queue, s.running, s.settled, s.nextTaskId, id);
    }
  }

  lemma {:induction false} SettleKeepsConserved(s: State, id: nat)
    requires Conserved(s)
    ensures Conserved(OnSettle(s, id))
  {
    assert s.running !! s.settled;
    hide Partition;
    if id in s.running {
      FinishRunning(s.queue, s.running, s.settled, s.nextTaskId, id);
      assert |s.running - {id}| == |s.running| - 1;
      assert |s.releasing + {id}| == |s.releasing| + 1;
    }
  }

  lemma {:induction false} ReleaseKeepsConserved(s: State, id: nat)
    requires Conserved(s)
    ensures Conserved(OnRelease(s, id))
  {
    hide Partition;
    if id in s.releasing {
      assert |s.releasing - {id}| == |s.releasing| - 1;
    }
  }

  lemma {:induction false} StepKeepsConserved(o: Options, s: State, step: Step)
    requires Conserved(s)
    ensures Conserved(Next(o, s, step))
  {
    match step
    case Tick(to) => hide Partition;
    case Schedule(aborted) => hide OnSchedule, Conserved; ScheduleKeepsConserved(o, s, aborted);
    case AbortQueued(id) => hide OnAbort, Conserved; AbortKeepsConserved(s, id);
    case CoolDown(ms) => hide Partition;
    case FirePump(startedAt, jitter) =>
      hide Iterate, Partition;
      IterateKeepsConserved(o, s.(pumpDue := None), startedAt, jitter);
    case PumpIteration(startedAt, jitter) => hide Iterate, Partition; IterateKeepsConserved(o, s, startedAt, jitter);
    case Settle(id) => hide OnSettle, Conserved; SettleKeepsConserved(s, id);
    case Release(id) => hide OnRelease, Conserved; ReleaseKeepsConserved(s, id);
  }

  lemma {:induction false} StepKeepsCapacity(o: Options, s: State, step: Step)
    requires ValidOptions(o) && WithinCapacity(o, s)
    ensures WithinCapacity(o, Next(o, s, step))
  {}

  lemma {:induction false} StepKeepsAwake(o: Options, s: State, step: Step)
    requires ValidOptions(o) && Awake(o, s) && s.lastRunAt <= s.now && s.activeCount >= 0
    ensures Awake(o, Next(o, s, step))
  {}

  /** A log may grow by an event that settles no settled id, and by a start that comes
      after everything the log has promised. */
  ghost predicate MayFollow(o: Options, log: seq<Event>, e: Event) {
    && (forall i, id :: 0 <= i < |log| && Settles(log[i], id) ==> !Settles(e, id))
    && (e.Started? ==>
          forall i :: 0 <= i < |log| ==>
            && (log[i].Started? ==> log[i].id < e.id && log[i].at + o.minTimeMs <= e.at)
            && (log[i].CooledDown? ==> log[i].until <= e.at)
            && !Settles(log[i], e.id))
  }

  ghost predicate Ordered(o: Options, log: seq<Event>) {
    log == [] || (Ordered(o, log[..|log| - 1]) && MayFollow(o, log[..|log| - 1], log[|log| - 1]))
  }

  ghost predicate LogInv(o: Options, s: State) {
    Ordered(o, s.log) && StartBounds(s) && CoolDownBounds(s) && SettleBounds(s)
  }

  lemma {:induction false} OrderedGrows(o: Options, log: seq<Event>, e: Event)
    requires Ordered(o, log) && MayFollow(o, log, e)
    ensures Ordered(o, log + [e])
    ensures SettledIds(log + [e]) == SettledIds(log) + if e.Cancelled? || e.Finished? then {e.id} else {}
  {
    assert (log + [e])[..|log|] == log;
  }

  lemma {:induction false} OrderedIsSafe(o: Options, log: seq<Event>)
    requires Ordered(o, log)
    ensures SafeLog(o, log)
  {
    if log != [] {
      var front, e := log[..|log| - 1], log[|log| - 1];
      OrderedIsSafe(o, front);
      assert log == front + [e];
    }
  }

  /** The one step that logs a start: the head of the queue, after both waits. */
  lemma {:induction false} StartKeepsLog(o: Options, s: State, t: State, at: int)
    requires ValidOptions(o) && LogInv(o, s) && s.queue != []
    requires s.queue[0] !in s.settled && (forall k :: 0 < k < |s.queue| ==> s.queue[0] < s.queue[k])
    requires s.queue[0] < s.nextTaskId
    requires s.cooldownUntil <= at && s.lastRunAt + o.minTimeMs <= at
    requires t.log == s.log + [Started(s.queue[0], at)] && t.queue == s.queue[1..]
    requires t.settled == s.settled && t.cooldownUntil == s.cooldownUntil && t.nextTaskId == s.nextTaskId
    requires t.lastRunAt == at == t.now
    ensures LogInv(o, t)
  {
    var e := Started(s.queue[0], at);
    assert MayFollow(o, s.log, e);
    OrderedGrows(o, s.log, e);
    hide Ordered, MayFollow, SettledIds;
  }

  lemma {:induction false} SameLogKept(o: Options, s: State, t: State)
    requires LogInv(o, s) && t.log == s.log && t.queue == s.queue && t.settled == s.settled
    requires t.lastRunAt == s.lastRunAt && t.cooldownUntil == s.cooldownUntil && t.nextTaskId == s.nextTaskId
    requires s.now <= t.now
    ensures LogInv(o, t)
  {}

  lemma {:induction false} HeadIsLeast(s: State)
    requires Conserved(s) && s.queue != []
    ensures s.queue[0] !in s.settled && s.queue[0] < s.nextTaskId
    ensures forall k :: 0 < k < |s.queue| ==> s.queue[0] < s.queue[k]
  {
    assert s.queue[0] in s.queue;
  }

  lemma {:induction false} IterateKeepsLog(o: Options, s: State, startedAt: int, jitter: int)
    requires ValidOptions(o) && Conserved(s) && LogInv(o, s)
    requires s.now <= startedAt && 0 <= jitter
    ensures LogInv(o, Iterate(o, s, startedAt, jitter))
  {
    hide LogInv, Conserved;
    var t := Iterate(o, s, startedAt, jitter);
    if s.queue == [] || t.queue == s.queue {
      SameLogKept(o, s, t);
    } else {
      HeadIsLeast(s);
      StartKeepsLog(o, s, t, startedAt);
    }
  }

  /** Any step that logs something other than a start. */
  lemma {:induction false} QuietEventKeepsLog(o: Options, s: State, t: State, e: Event)
    requires LogInv(o, s) && !e.Started?
    requires e.Cancelled? || e.Finished? ==> e.id !in s.settled
    requires t.log == s.log + [e] && s.now <= t.now && s.nextTaskId <= t.nextTaskId && t.lastRunAt == s.lastRunAt
    requires s.cooldownUntil <= t.cooldownUntil && (e.CooledDown? ==> e.until <= t.cooldownUntil)
    requires t.settled == s.settled + if e.Cancelled? || e.Finished? then {e.id} else {}
    requires forall k :: 0 <= k < |t.queue| ==> t.queue[k] in s.queue || s.nextTaskId <= t.queue[k]
    ensures LogInv(o, t)
  {
    assert MayFollow(o, s.log, e);
    OrderedGrows(o, s.log, e);
    hide Ordered, MayFollow, SettledIds;
    forall i, q | 0 <= i < |t.log| && t.log[i].Started? && 0 <= q < |t.queue|
      ensures t.log[i].id < t.queue[q]
    {
      assert t.log[i] == s.log[i];
      if t.queue[q] in s.queue {
        var k :| 0 <= k < |s.queue| && s.queue[k] == t.queue[q];
      }
    }
  }

  lemma {:induction false} CancelledOnArrival(o: Options, s: State, t: State)
    requires LogInv(o, s) && s.nextTaskId !in s.settled
    requires t == s.(nextTaskId := s.nextTaskId + 1,
                     settled := s.settled + {s.nextTaskId},
                     log := s.log + [Issued(s.nextTaskId)] + [Cancelled(s.nextTaskId)])
    ensures LogInv(o, t)
  {
    hide LogInv;
    var mid := s.(nextTaskId := s.nextTaskId + 1, log := s.log + [Issued(s.nextTaskId)]);
    QuietEventKeepsLog(o, s, mid, Issued(s.nextTaskId));
    QuietEventKeepsLog(o, mid, t, Cancelled(s.nextTaskId));
  }

  lemma {:induction false} NextIdIsNew(s: State)
    requires Conserved(s)
    ensures s.nextTaskId !in s.settled
  {}

  lemma {:induction false} EnqueuedKeepsLog(o: Options, s: State, t: State)
    requires LogInv(o, s) && t.log == s.log + [Issued(s.nextTaskId)] && t.queue == s.queue + [s.nextTaskId]
    requires t.now == s.now && t.nextTaskId == s.nextTaskId + 1 && t.lastRunAt == s.lastRunAt
    requires t.cooldownUntil == s.cooldownUntil && t.settled == s.settled
    ensures LogInv(o, t)
  {
    hide LogInv;
    QuietEventKeepsLog(o, s, t, Issued(s.nextTaskId));
  }

  lemma {:induction false} RefusedKeepsLog(o: Options, s: State)
    requires LogInv(o, s)
    ensures LogInv(o, s.(log := s.log + [Overflowed]))
  {
    hide LogInv;
    QuietEventKeepsLog(o, s, s.(log := s.log + [Overflowed]), Overflowed);
  }

  lemma {:induction false} ScheduleKeepsLog(o: Options, s: State, aborted: bool)
    requires Conserved(s) && LogInv(o, s)
    ensures LogInv(o, OnSchedule(o, s, aborted))
  {
    hide LogInv, Conserved;
    NextIdIsNew(s);
    if |s.queue| >= o.maxQueueSize {
      RefusedKeepsLog(o, s);
    } else if aborted {
      CancelledOnArrival(o, s, OnSchedule(o, s, aborted));
    } else {
      EnqueuedKeepsLog(o, s, OnSchedule(o, s, aborted));
    }
  }

  lemma {:induction false} AbortKeepsLog(o: Options, s: State, id: nat)
    requires Conserved(s) && LogInv(o, s)
    ensures LogInv(o, OnAbort(s, id))
  {
    if id in s.queue {
      RemoveKeeps(s.queue, id);
      hide LogInv, Conserved;
      QuietEventKeepsLog(o, s, OnAbort(s, id), Cancelled(id));
    }
  }

  lemma {:induction false} SettleKeepsLog(o: Options, s: State, id: nat)
    requires Conserved(s) && LogInv(o, s)
    ensures LogInv(o, OnSettle(s, id))
  {
    if id in s.running {
      assert id !in s.settled;
      hide LogInv, Conserved;
      QuietEventKeepsLog(o, s, OnSettle(s, id), Finished(id));
    }
  }

  lemma {:induction false} CoolDownKeepsLog(o: Options, s: State, ms: int)
    requires LogInv(o, s)
    ensures LogInv(o, OnCoolDown(s, ms))
  {
    hide LogInv;
    if ms > 0 {
      QuietEventKeepsLog(o, s, OnCoolDown(s, ms), CooledDown(s.now + ms));
    }
  }

  lemma {:induction false} StepKeepsLog(o: Options, s: State, step: Step)
    requires ValidOptions(o) && Conserved(s) && LogInv(o, s)
    ensures LogInv(o, Next(o, s, step))
  {
    hide LogInv, Conserved, OnSchedule, OnAbort, OnCoolDown, Iterate, OnSettle;
    match step
    case Tick(_) => SameLogKept(o, s, Next(o, s, step));
    case Schedule(aborted) => ScheduleKeepsLog(o, s, aborted);
    case AbortQueued(id) => AbortKeepsLog(o, s, id);
    case CoolDown(ms) => CoolDownKeepsLog(o, s, ms);
    case FirePump(startedAt, jitter) =>
      if FireEnabled(o, s, startedAt, jitter) {
        SameLogKept(o, s, s.(pumpDue := None));
        TimerOff(s);
        IterateKeepsLog(o, s.(pumpDue := None), startedAt, jitter);
      }
    case PumpIteration(startedAt, jitter) =>
      if IterationEnabled(o, s, startedAt, jitter) { IterateKeepsLog(o, s, startedAt, jitter); }
    case Settle(id) => SettleKeepsLog(o, s, id);
    case Release(_) => SameLogKept(o, s, Next(o, s, step));
  }

  lemma {:induction false} TimerOff(s: State)
    requires Conserved(s)
    ensures Conserved(s.(pumpDue := None))
  {}

  // ---------- whole runs ----------

  lemma {:induction false} RunKeepsInv(o: Options, s: State, steps: seq<Step>)
    requires ValidOptions(o) && Inv(o, s)
    ensures Inv(o, Exec(o, s, steps))
    decreases |steps|
  {
    if steps != [] {
      StepKeepsConserved(o, s, steps[0]);
      StepKeepsCapacity(o, s, steps[0]);
      StepKeepsAwake(o, s, steps[0]);
      StepKeepsLog(o, s, steps[0]);
      RunKeepsInv(o, Next(o, s, steps[0]), steps[1..]);
    }
  }

  /** In every run: starts come in increasing id order at least `minTimeMs` apart, none
      before a cool-down asked for earlier has passed, no promise settles twice, nothing
      settled is started, and both capacities are respected. */
  lemma {:induction false} SchedulerSafety(o: Options, t0: nat, steps: seq<Step>)
    requires ValidOptions(o)
    ensures var s := Exec(o, Init(t0), steps);
      SafeLog(o, s.log) && s.activeCount <= o.maxConcurrent && |s.queue| <= o.maxQueueSize
  {
    RunKeepsInv(o, Init(t0), steps);
    OrderedIsSafe(o, Exec(o, Init(t0), steps).log);
  }

  /** In every run the ids handed out are split between queued, running and settled; the
      settled ones are exactly those the log settles; a finished task still owns a slot,
      so the clamp in `Release` never clips; and the queue never holds a settled task. */
  lemma {:induction false} TaskConservation(o: Options, t0: nat, steps: seq<Step>)
    requires ValidOptions(o)
    ensures var s := Exec(o, Init(t0), steps);
      && Conserved(s)
      && s.settled == SettledIds(s.log)
      && (s.releasing != {} ==> s.activeCount - 1 == Max(0, s.activeCount - 1))
      && (s.queue != [] ==> s.queue[0] !in s.settled)
  {
    RunKeepsInv(o, Init(t0), steps);
    var s := Exec(o, Init(t0), steps);
    if s.queue != [] {
      HeadIsLeast(s);
    }
    hide Exec, Ordered, Partition, StartBounds, CoolDownBounds, Awake;
  }

  ghost function LastStartIn(log: seq<Event>): int {
    if log == [] then 0
    else if log[|log| - 1].Started? then log[|log| - 1].at else LastStartIn(log[..|log| - 1])
  }

  ghost function LatestCoolDown(log: seq<Event>): int {
    if log == [] then 0
    else
      var before, e := LatestCoolDown(log[..|log| - 1]), log[|log| - 1];
      if e.CooledDown? && e.until > before then e.until else before
  }

  ghost function IssuedIn(log: seq<Event>): nat {
    if log == [] then 0 else IssuedIn(log[..|log| - 1]) + if log[|log| - 1].Issued? then 1 else 0
  }

  ghost predicate FollowsLog(s: State) {
    && s.lastRunAt == LastStartIn(s.log) && s.cooldownUntil == LatestCoolDown(s.log)
    && s.nextTaskId == IssuedIn(s.log) + 1
  }

  lemma {:induction false} LogGrows(log: seq<Event>, e: Event)
    ensures LastStartIn(log + [e]) == if e.Started? then e.at else LastStartIn(log)
    ensures LatestCoolDown(log + [e]) ==
            if e.CooledDown? then Max(LatestCoolDown(log), e.until) else LatestCoolDown(log)
    ensures IssuedIn(log + [e]) == IssuedIn(log) + if e.Issued? then 1 else 0
  {
    assert (log + [e])[..|log|] == log;
  }

  lemma {:induction false} EventFollowsLog(s: State, e: Event, t: State)
    requires FollowsLog(s) && t.log == s.log + [e]
    requires t.lastRunAt == if e.Started? then e.at else s.lastRunAt
    requires t.cooldownUntil == if e.CooledDown? then Max(s.cooldownUntil, e.until) else s.cooldownUntil
    requires t.nextTaskId == s.nextTaskId + if e.Issued? then 1 else 0
    ensures FollowsLog(t)
  {
    LogGrows(s.log, e);
    hide LastStartIn, LatestCoolDown, IssuedIn;
  }

  lemma {:induction false} SilenceFollowsLog(s: State, t: State)
    requires FollowsLog(s)
    requires t == s.(now := t.now, queue := t.queue, releasing := t.releasing, activeCount := t.activeCount,
                     pumpDue := t.pumpDue, pumping := t.pumping)
    ensures FollowsLog(t)
  {}

  lemma {:induction false} IterateFollowsLog(o: Options, s: State, startedAt: int, jitter: int)
    requires FollowsLog(s)
    ensures FollowsLog(Iterate(o, s, startedAt, jitter))
  {
    hide FollowsLog, SpacingWait;
    var t := Iterate(o, s, startedAt, jitter);
    if t.log == s.log {
      SilenceFollowsLog(s, t);
    } else {
      EventFollowsLog(s, Started(s.queue[0], startedAt), t);
    }
  }

  lemma {:induction false} StepFollowsLog(o: Options, s: State, step: Step)
    requires FollowsLog(s)
    ensures FollowsLog(Next(o, s, step))
  {
    hide FollowsLog, Iterate;
    match step
    case Tick(to) => SilenceFollowsLog(s, Next(o, s, step));
    case Schedule(aborted) =>
      if |s.queue| >= o.maxQueueSize {
        EventFollowsLog(s, Overflowed, Next(o, s, step));
      } else {
        var issued := s.(nextTaskId := s.nextTaskId + 1, log := s.log + [Issued(s.nextTaskId)]);
        EventFollowsLog(s, Issued(s.nextTaskId), issued);
        if aborted {
          EventFollowsLog(issued, Cancelled(s.nextTaskId), Next(o, s, step));
        } else {
          SilenceFollowsLog(issued, Next(o, s, step));
        }
      }
    case AbortQueued(id) =>
      if id !in s.settled && id in s.queue {
        EventFollowsLog(s, Cancelled(id), Next(o, s, step));
      }
    case CoolDown(ms) =>
      if ms > 0 {
        EventFollowsLog(s, CooledDown(s.now + ms), Next(o, s, step));
      }
    case FirePump(startedAt, jitter) =>
      SilenceFollowsLog(s, s.(pumpDue := None));
      IterateFollowsLog(o, s.(pumpDue := None), startedAt, jitter);
    case PumpIteration(startedAt, jitter) => IterateFollowsLog(o, s, startedAt, jitter);
    case Settle(id) =>
      if id in s.running {
        EventFollowsLog(s, Finished(id), Next(o, s, step));
      }
    case Release(id) => SilenceFollowsLog(s, Next(o, s, step));
  }

  lemma {:induction false} RunFollowsLog(o: Options, s: State, steps: seq<Step>)
    requires FollowsLog(s)
    ensures FollowsLog(Exec(o, s, steps))
    decreases |steps|
  {
    if steps != [] {
      StepFollowsLog(o, s, steps[0]);
      hide FollowsLog, Next;
      RunFollowsLog(o, Next(o, s, steps[0]), steps[1..]);
    }
  }

  /** In every run spacing is measured from the last start, or from the epoch before the first
      one; the cool-down ends at the latest end ever asked for; and ids are handed out in turn
      from one. */
  lemma {:induction false} TimesFollowLog(o: Options, t0: nat, steps: seq<Step>)
    ensures var s := Exec(o, Init(t0), steps);
      && s.lastRunAt == LastStartIn(s.log) && s.cooldownUntil == LatestCoolDown(s.log)
      && s.nextTaskId == IssuedIn(s.log) + 1
  {
    RunFollowsLog(o, Init(t0), steps);
  }

  /** In every run, once control is back in the event loop, work that could start has a
      pump pending, due no later than the first moment a start is allowed, plus jitter. */
  lemma {:induction false} NoLostWakeup(o: Options, t0: nat, steps: seq<Step>)
    requires ValidOptions(o)
    ensures var s := Exec(o, Init(t0), steps);
      !s.pumping && s.queue != [] && s.activeCount < o.maxConcurrent ==>
        s.pumpDue.Some? && s.pumpDue.value <= EarliestStart(o, s) + o.jitterMs
  {
    RunKeepsInv(o, Init(t0), steps);
  }

  // ---------- progress ----------

  predicate HasWork(o: Options, s: State) {
    s.queue != [] && s.activeCount < o.maxConcurrent
  }

  /** The pump fires and finds a task and a free slot. */
  predicate Fires(o: Options, s: State, step: Step) {
    step.FirePump? && FireEnabled(o, s, step.startedAt, step.jitter) && HasWork(o, s)
  }

  /** Such firings in a run. */
  function Firings(o: Options, s: State, steps: seq<Step>): nat
    decreases |steps|
  {
    if steps == [] then 0
    else (if Fires(o, s, steps[0]) then 1 else 0) + Firings(o, Next(o, s, steps[0]), steps[1..])
  }

  /** No cool-down is asked for. */
  predicate Undisturbed(steps: seq<Step>) {
    forall i :: 0 <= i < |steps| ==> !steps[i].CoolDown?
  }

  function Starts(log: seq<Event>): nat {
    if log == [] then 0 else Starts(log[..|log| - 1]) + if log[|log| - 1].Started? then 1 else 0
  }

  /** How many of the two waits (cool-down, spacing) outlast time `at`. */
  function Waits(o: Options, s: State, at: int): nat {
    (if s.cooldownUntil > at then 1 else 0) + (if s.lastRunAt + o.minTimeMs > at then 1 else 0)
  }

  function WaitsAtPump(o: Options, s: State): nat {
    Waits(o, s, if s.pumpDue.Some? then Max(s.now, s.pumpDue.value) else s.now)
  }

  lemma {:induction false} StartsGrow(log: seq<Event>, e: Event)
    ensures Starts(log + [e]) == Starts(log) + if e.Started? then 1 else 0
  {
    assert (log + [e])[..|log|] == log;
  }

  lemma {:induction false} IterateStarts(o: Options, s: State, startedAt: int, jitter: int)
    ensures var t := Iterate(o, s, startedAt, jitter);
      && Starts(t.log) >= Starts(s.log)
      && (t.pumping ==> Starts(t.log) > Starts(s.log) || (s.queue != [] && s.queue[0] in s.settled))
  {
    if s.queue != [] {
      StartsGrow(s.log, Started(s.queue[0], startedAt));
    }
    hide Starts, SpacingWait;
  }

  lemma {:induction false} StepStarts(o: Options, s: State, step: Step)
    ensures Starts(Next(o, s, step).log) >= Starts(s.log)
    ensures !s.pumping && Next(o, s, step).pumping ==>
      Starts(Next(o, s, step).log) > Starts(s.log) || (s.queue != [] && s.queue[0] in s.settled)
  {
    hide Starts, Iterate;
    match step
    case Tick(to) =>
    case Schedule(aborted) =>
      StartsGrow(s.log, Overflowed);
      StartsGrow(s.log, Issued(s.nextTaskId));
      StartsGrow(s.log + [Issued(s.nextTaskId)], Cancelled(s.nextTaskId));
    case AbortQueued(id) => StartsGrow(s.log, Cancelled(id));
    case CoolDown(ms) => StartsGrow(s.log, CooledDown(s.now + ms));
    case FirePump(startedAt, jitter) => IterateStarts(o, s.(pumpDue := None), startedAt, jitter);
    case PumpIteration(startedAt, jitter) => IterateStarts(o, s, startedAt, jitter);
    case Settle(id) => StartsGrow(s.log, Finished(id));
    case Release(id) =>
  }

  lemma {:induction false} RunStarts(o: Options, s: State, steps: seq<Step>)
    ensures Starts(Exec(o, s, steps).log) >= Starts(s.log)
    decreases |steps|
  {
    if steps != [] {
      StepStarts(o, s, steps[0]);
      RunStarts(o, Next(o, s, steps[0]), steps[1..]);
    }
  }

  lemma {:induction false} StepWaits(o: Options, s: State, step: Step)
    requires ValidOptions(o) && o.jitterMs == 0 && !s.pumping && !step.CoolDown?
    requires !Next(o, s, step).pumping
    ensures WaitsAtPump(o, Next(o, s, step)) + (if Fires(o, s, step) then 1 else 0) <= WaitsAtPump(o, s)
  {}

  /** Each firing that starts nothing outwaits one of the two waits for good. */
  lemma {:induction false} IdleFirings(o: Options, s: State, steps: seq<Step>)
    requires ValidOptions(o) && o.jitterMs == 0 && Inv(o, s) && !s.pumping
    requires Undisturbed(steps)
    requires Starts(Exec(o, s, steps).log) == Starts(s.log)
    ensures Firings(o, s, steps) <= WaitsAtPump(o, s)
    decreases |steps|
  {
    if steps != [] {
      var t := Next(o, s, steps[0]);
      StepKeepsConserved(o, s, steps[0]);
      StepKeepsCapacity(o, s, steps[0]);
      StepKeepsAwake(o, s, steps[0]);
      StepKeepsLog(o, s, steps[0]);
      StepStarts(o, s, steps[0]);
      RunStarts(o, t, steps[1..]);
      assert s.queue != [] ==> s.queue[0] in s.queue;
      assert forall i :: 0 <= i < |steps[1..]| ==> steps[1..][i] == steps[i + 1];
      StepWaits(o, s, steps[0]);
      IdleFirings(o, t, steps[1..]);
    }
  }

  /** Without jitter and without new cool-downs, three firings that find a task and a free
      slot start at least one task, whatever else happens in between, idle firings included. */
  lemma {:induction false} StartsWithinThreeFirings(o: Options, t0: nat, before: seq<Step>, steps: seq<Step>)
    requires ValidOptions(o) && o.jitterMs == 0
    requires var s := Exec(o, Init(t0), before);
      !s.pumping && Undisturbed(steps) && Firings(o, s, steps) >= 3
    ensures var s := Exec(o, Init(t0), before);
      Starts(Exec(o, s, steps).log) > Starts(s.log)
  {
    var s := Exec(o, Init(t0), before);
    RunKeepsInv(o, Init(t0), before);
    RunStarts(o, s, steps);
    if Starts(Exec(o, s, steps).log) == Starts(s.log) {
      IdleFirings(o, s, steps);
    }
  }

  /** With jitter the bound is lost: every firing draws afresh, so any number of firings
      may pass over a waiting task and a free slot. */
  lemma {:induction false} JitterCanDelayForever(o: Options, s: State, n: nat) returns (steps: seq<Step>)
    requires ValidOptions(o) && o.jitterMs >= 1
    requires !s.pumping && HasWork(o, s) && s.pumpDue.Some?
    ensures Undisturbed(steps) && Firings(o, s, steps) == n
    ensures Exec(o, s, steps).log == s.log
    decreases n
  {
    if n == 0 {
      steps := [];
    } else {
      var s1 := OnTick(s, s.pumpDue.value);
      var fire := FirePump(s1.now, o.jitterMs);
      var rest := JitterCanDelayForever(o, Next(o, s1, fire), n - 1);
      steps := [Tick(s.pumpDue.value), fire] + rest;
      assert steps[1..] == [fire] + rest;
      assert steps[1..][1..] == rest;
    }
  }

  // ---------- what each step does, in every run ----------

  lemma {:induction false} ReachedState(o: Options, t0: nat, steps: seq<Step>)
    requires ValidOptions(o)
    ensures var s := Exec(o, Init(t0), steps);
      && Increasing(s.queue)
      && (forall id :: id in s.queue ==> id !in s.running && id !in s.settled)
      && (s.queue != [] ==> s.queue[0] !in s.settled)
      && s.nextTaskId !in s.queue && s.nextTaskId !in s.running && s.nextTaskId !in s.settled
      && s.running !! s.settled
      && (s.releasing != {} ==> s.activeCount >= 1)
  {
    RunKeepsInv(o, Init(t0), steps);
    TaskConservation(o, t0, steps);
    hide Exec, LogInv, Awake, Increasing, SettledIds;
  }

  /** A pump request made while one is pending is dropped; otherwise it falls due at `at`. */
  ghost predicate PumpRequested(s: State, t: State, at: int) {
    t.pumpDue == if s.pumpDue.Some? then s.pumpDue else Some(at)
  }

  /** A task is refused exactly when the queue is full, and then nothing else changes. Otherwise
      it gets a new id: cancelled on arrival if it was aborted, else last in the queue. */
  lemma {:induction false} ScheduleLaw(o: Options, t0: nat, steps: seq<Step>, s: State, aborted: bool)
    requires ValidOptions(o) && s == Exec(o, Init(t0), steps)
    ensures var t, id := Next(o, s, Schedule(aborted)), s.nextTaskId;
      && id !in s.queue && id !in s.running && id !in s.settled
      && (Overflowed == t.log[|t.log| - 1] <==> |s.queue| >= o.maxQueueSize)
      && (|s.queue| >= o.maxQueueSize ==> t == s.(log := s.log + [Overflowed]))
      && (|s.queue| < o.maxQueueSize && aborted ==>
            && t.queue == s.queue && t.settled == s.settled + {id} && t.nextTaskId == id + 1
            && t.log == s.log + [Issued(id), Cancelled(id)] && t.pumpDue == s.pumpDue)
      && (|s.queue| < o.maxQueueSize && !aborted ==>
            && t.queue == s.queue + [id] && t.settled == s.settled && t.nextTaskId == id + 1
            && t.log == s.log + [Issued(id)] && PumpRequested(s, t, s.now))
      && t.running == s.running && t.activeCount == s.activeCount
      && t.lastRunAt == s.lastRunAt && t.cooldownUntil == s.cooldownUntil
  {
    ReachedState(o, t0, steps);
    hide Exec;
    var id := s.nextTaskId;
    assert s.log + [Issued(id)] + [Cancelled(id)] == s.log + [Issued(id), Cancelled(id)];
  }

  /** An abort takes a queued task out of the queue, keeps the order of the others, and settles
      it; it does nothing to any other task. */
  lemma {:induction false} AbortLaw(o: Options, t0: nat, steps: seq<Step>, s: State, id: nat)
    requires ValidOptions(o) && s == Exec(o, Init(t0), steps)
    ensures var t := Next(o, s, AbortQueued(id));
      && (id !in s.queue ==> t == s)
      && (id in s.queue ==>
            && (forall k :: 0 <= k < |s.queue| && s.queue[k] == id ==> t.queue == s.queue[..k] + s.queue[k + 1..])
            && id !in t.queue && id !in s.settled && id in t.settled && t.log == s.log + [Cancelled(id)]
            && t == s.(queue := t.queue, settled := s.settled + {id}, log := t.log))
  {
    ReachedState(o, t0, steps);
    hide Exec;
    if id in s.queue {
      RemoveKeeps(s.queue, id);
      forall k | 0 <= k < |s.queue| && s.queue[k] == id
        ensures RemoveFromQueue(s.queue, id) == s.queue[..k] + s.queue[k + 1..]
      {
        forall j | 0 <= j < k
          ensures s.queue[j] != id
        {}
        RemoveAt(s.queue, k, id);
      }
    }
  }

  /** A cool-down keeps the later of the two ends and asks for a pump at its own end. */
  lemma {:induction false} CoolDownLaw(o: Options, s: State, ms: int)
    ensures var t := Next(o, s, CoolDown(ms));
      && (ms <= 0 ==> t == s)
      && (ms > 0 ==>
            && t.cooldownUntil >= s.now + ms && t.cooldownUntil >= s.cooldownUntil
            && (t.cooldownUntil == s.now + ms || t.cooldownUntil == s.cooldownUntil)
            && PumpRequested(s, t, s.now + ms) && t.log == s.log + [CooledDown(s.now + ms)]
            && t == s.(cooldownUntil := t.cooldownUntil, pumpDue := t.pumpDue, log := t.log))
  {}

  /** The moment is right for the head of the queue: a free slot, no cool-down, spacing kept. */
  predicate MayStart(o: Options, s: State, jitter: int) {
    && s.queue != [] && s.activeCount < o.maxConcurrent
    && s.cooldownUntil <= s.now && s.lastRunAt + o.minTimeMs <= s.now && jitter == 0
  }

  /** When the first obstacle to a start is over. */
  function ComeBackAt(o: Options, s: State, jitter: int): Option<int> {
    if s.queue == [] || s.activeCount >= o.maxConcurrent then None
    else if s.cooldownUntil > s.now then Some(s.cooldownUntil)
    else Some(Max(s.now, s.lastRunAt + o.minTimeMs) + jitter)
  }

  ghost predicate HeadStarted(s: State, t: State, startedAt: int) {
    && s.queue != [] && t.queue == s.queue[1..] && t.running == s.running + {s.queue[0]}
    && t.activeCount == s.activeCount + 1 && t.lastRunAt == t.now == startedAt
    && t.log == s.log + [Started(s.queue[0], startedAt)]
    && t.settled == s.settled && t.cooldownUntil == s.cooldownUntil
  }

  /** A pump that is due starts the head of the queue exactly when the moment is right. Else it
      starts nothing and, if there is work, comes back when the first obstacle is over: the
      cool-down, or the spacing and the jitter drawn. */
  lemma {:induction false} FireLaw(o: Options, t0: nat, steps: seq<Step>, s: State, startedAt: int, jitter: int)
    requires ValidOptions(o) && s == Exec(o, Init(t0), steps)
    requires !s.pumping && s.pumpDue.Some? && s.pumpDue.value <= s.now <= startedAt && 0 <= jitter <= o.jitterMs
    ensures var t := Next(o, s, FirePump(startedAt, jitter));
      && (MayStart(o, s, jitter) ==> HeadStarted(s, t, startedAt) && t.pumping && t.pumpDue.None?)
      && (!MayStart(o, s, jitter) ==> t == s.(pumpDue := t.pumpDue))
      && (!MayStart(o, s, jitter) ==> t.pumpDue == ComeBackAt(o, s, jitter))
  {
    ReachedState(o, t0, steps);
    hide Exec;
  }

  /** The further iterations of the pump's loop start tasks under the same condition. */
  lemma {:induction false} IterationLaw(o: Options, t0: nat, steps: seq<Step>, s: State, startedAt: int, jitter: int)
    requires ValidOptions(o) && s == Exec(o, Init(t0), steps)
    requires s.pumping && s.now <= startedAt && 0 <= jitter <= o.jitterMs
    ensures var t := Next(o, s, PumpIteration(startedAt, jitter));
      && (MayStart(o, s, jitter) ==> HeadStarted(s, t, startedAt) && t.pumping)
      && (!MayStart(o, s, jitter) ==> t == s.(pumpDue := t.pumpDue, pumping := false))
  {
    ReachedState(o, t0, steps);
    hide Exec;
  }

  /** A running task settles once, and still holds its slot. */
  lemma {:induction false} SettleLaw(o: Options, t0: nat, steps: seq<Step>, s: State, id: nat)
    requires ValidOptions(o) && s == Exec(o, Init(t0), steps)
    ensures var t := Next(o, s, Settle(id));
      && (id !in s.running ==> t == s)
      && (id in s.running ==>
            && id !in s.settled && t.activeCount == s.activeCount
            && t == s.(running := s.running - {id}, releasing := s.releasing + {id},
                       settled := s.settled + {id}, log := s.log + [Finished(id)]))
  {
    ReachedState(o, t0, steps);
    hide Exec;
  }

  /** The release of a settled task frees exactly one slot and asks for a pump at once. */
  lemma {:induction false} ReleaseLaw(o: Options, t0: nat, steps: seq<Step>, s: State, id: nat)
    requires ValidOptions(o) && s == Exec(o, Init(t0), steps)
    ensures var t := Next(o, s, Release(id));
      && (id !in s.releasing ==> t == s)
      && (id in s.releasing ==>
            && PumpRequested(s, t, s.now)
            && t == s.(activeCount := s.activeCount - 1, releasing := s.releasing - {id}, pumpDue := t.pumpDue))
  {
    ReachedState(o, t0, steps);
    hide Exec;
  }

  // ---------- the limiter object ----------

  lemma {:induction false} RemoveAt(q: seq<nat>, index: nat, id: nat)
    requires index < |q| && q[index] == id && id !in q[..index]
    ensures RemoveFromQueue(q, id) == q[..index] + q[index + 1..]
  {
    if index > 0 {
      assert q[0] == q[..index][0];
      assert forall x :: x in q[1..][..index - 1] ==> x in q[..index];
      RemoveAt(q[1..], index - 1, id);
    }
  }

  /** The pump's loop from its `k`-th iteration on. */
  ghost function PumpRun(o: Options, s: State, time: nat -> int, draw: nat -> int, k: nat): State
    decreases |s.queue| + if s.pumping then 1 else 0
  {
    if !s.pumping then s
    else PumpRun(o, Iterate(o, s.(now := time(2 * k)), time(2 * k + 1), draw(k)), time, draw, k + 1)
  }

  /** A whole pump is a run of the state machine. */
  lemma {:induction false} PumpRunIsRun(o: Options, s: State, time: nat -> int, draw: nat -> int, k: nat)
    returns (steps: seq<Step>)
    requires forall i: nat, j: nat :: i <= j ==> time(i) <= time(j)
    requires forall i: nat :: 0 <= draw(i) <= o.jitterMs
    requires s.now <= time(2 * k)
    ensures PumpRun(o, s, time, draw, k) == Exec(o, s, steps)
    decreases |s.queue| + if s.pumping then 1 else 0
  {
    if !s.pumping {
      steps := [];
    } else {
      var s1 := s.(now := time(2 * k));
      var iteration := PumpIteration(time(2 * k + 1), draw(k));
      assert time(2 * k) <= time(2 * k + 1) <= time(2 * (k + 1));
      var t := Next(o, s1, iteration);
      var rest := PumpRunIsRun(o, t, time, draw, k + 1);
      steps := [Tick(time(2 * k)), iteration] + rest;
      assert steps[1..] == [iteration] + rest && steps[1..][1..] == rest;
    }
  }

  /** So what the `Pump` method does to the limiter is a run that starts by firing. */
  lemma {:induction false} PumpIsRun(o: Options, s: State, time: nat -> int, draw: nat -> int)
    returns (steps: seq<Step>)
    requires forall i: nat, j: nat :: i <= j ==> time(i) <= time(j)
    requires forall i: nat :: 0 <= draw(i) <= o.jitterMs
    requires !s.pumping && s.pumpDue.Some? && s.now <= time(0) && s.pumpDue.value <= time(0)
    ensures PumpRun(o, s.(pumpDue := None, pumping := true), time, draw, 0) == Exec(o, s, steps)
  {
    var fire := FirePump(time(1), draw(0));
    assert time(0) <= time(1) <= time(2);
    var s1 := OnTick(s, time(0));
    var t := Next(o, s1, fire);
    assert t == Iterate(o, s.(pumpDue := None, pumping := true, now := time(0)), time(1), draw(0));
    var rest := PumpRunIsRun(o, t, time, draw, 1);
    steps := [Tick(time(0)), fire] + rest;
    assert steps[1..] == [fire] + rest && steps[1..][1..] == rest;
  }

  /** The limiter's own fields. `settled` stands for the `settled` flags of the queued
      task objects; `running` and `releasing` for the closures of started
      tasks; the ghost fields are the runtime's clock, timer and control state. A method
      takes the clock readings and random draws it makes as parameters. */
  class Limiter {
    const options: Options
    var queue: seq<nat>
    var settled: set<nat>
    var activeCount: int
    var lastRunAt: int
    var cooldownUntil: int
    var pumpScheduled: bool
    var nextTaskId: nat
    var running: set<nat>
    var releasing: set<nat>
    ghost var pumpDueAt: int
    ghost var clock: int
    ghost var pumping: bool
    ghost var log: seq<Event>

    ghost function Model(): State
      reads this
    {
      State(clock, queue, running, releasing, settled, activeCount, lastRunAt, cooldownUntil,
            if pumpScheduled then Some(pumpDueAt) else None, pumping, nextTaskId, log)
    }

    constructor (options: Options, ghost now: nat)
      requires ValidOptions(options)
      ensures this.options == options && Model() == Init(now)
      ensures queue == [] && activeCount == 0 && lastRunAt == 0 && cooldownUntil == 0 && nextTaskId == 1
    {
      this.options := options;
      queue, settled, activeCount, lastRunAt, cooldownUntil := [], {}, 0, 0, 0;
      pumpScheduled, nextTaskId := false, 1;
      clock, running, releasing, pumping, log := now, {}, {}, false, [];
    }

    static method Create(raw: RawOptions, ghost now: nat) returns (r: Result<Limiter, OptionError>)
      ensures r.Ok? <==>
        && AtLeast(raw.maxConcurrent, 1) && AtLeast(raw.minTimeMs, 0) && AbsentOrAtLeast(raw.maxQueueSize, 1)
        && AbsentOrAtLeast(raw.defaultTaskTimeoutMs, 1) && AbsentOrAtLeast(raw.jitterMs, 0)
      ensures r.Ok? ==> CheckOptions(raw).None? && fresh(r.value) && r.value.options == Resolve(raw)
      ensures r.Ok? ==> r.value.Model() == Init(now)
      ensures r.Ok? ==> var o := r.value.options;
        && raw.maxConcurrent == Finite(o.maxConcurrent) && raw.minTimeMs == Finite(o.minTimeMs)
        && (raw.maxQueueSize.None? ==> o.maxQueueSize == 1000)
        && (raw.maxQueueSize.Some? ==> raw.maxQueueSize.value == Finite(o.maxQueueSize))
        && (raw.jitterMs.None? ==> o.jitterMs == 0)
        && (raw.jitterMs.Some? ==> raw.jitterMs.value == Finite(o.jitterMs))
      ensures r.Err? ==> FirstFailing(raw, r.error)
    {
      var bad := CheckOptions(raw);
      if bad.Some? {
        return Err(bad.value);
      }
      var limiter := new Limiter(Resolve(raw), now);
      return Ok(limiter);
    }

    method RequestPump(delayMs: int)
      modifies this`pumpScheduled, this`pumpDueAt
      ensures Model() == SchedulePump(old(Model()), delayMs)
    {
      if pumpScheduled {
        return;
      }
      pumpScheduled := true;
      pumpDueAt := clock + Max(0, delayMs);
    }

    /** The returned flag says whether the task was accepted into the queue. */
    method ScheduleTask(aborted: bool) returns (accepted: bool)
      modifies this
      ensures Model() == OnSchedule(options, old(Model()), aborted)
      ensures accepted <==> !aborted && |old(queue)| < options.maxQueueSize
      ensures accepted ==> queue == old(queue) + [old(nextTaskId)] && pumpScheduled
      ensures !accepted ==> queue == old(queue)
      ensures |old(queue)| >= options.maxQueueSize ==> nextTaskId == old(nextTaskId) && settled == old(settled)
      ensures |old(queue)| < options.maxQueueSize ==> nextTaskId == old(nextTaskId) + 1
    {
      if |queue| >= options.maxQueueSize {
        log := log + [Overflowed];
        return false;
      }
      var id := nextTaskId;
      nextTaskId := nextTaskId + 1;
      if aborted {
        settled := settled + {id};
        log := log + [Issued(id)] + [Cancelled(id)];
        return false;
      }
      queue := queue + [id];
      log := log + [Issued(id)];
      RequestPump(0);
      return true;
    }

    method Abort(id: nat)
      modifies this
      ensures Model() == OnAbort(old(Model()), id)
      ensures id in old(settled) || id !in old(queue) ==> queue == old(queue) && settled == old(settled)
      ensures id !in old(settled) && id in old(queue) ==> |queue| == |old(queue)| - 1 && settled == old(settled) + {id}
    {
      if id in settled {
        return;
      }
      var index := 0;
      while index < |queue| && queue[index] != id
        invariant index <= |queue| && id !in queue[..index]
      {
        index := index + 1;
      }
      if index == |queue| {
        return;
      }
      RemoveAt(queue, index, id);
      queue := queue[..index] + queue[index + 1..];
      settled := settled + {id};
      log := log + [Cancelled(id)];
    }

    method CoolDownFor(now: int, ms: int)
      requires clock <= now
      modifies this
      ensures Model() == OnCoolDown(OnTick(old(Model()), now), ms)
      ensures cooldownUntil == if ms > 0 && now + ms > old(cooldownUntil) then now + ms else old(cooldownUntil)
      ensures ms > 0 ==> pumpScheduled
    {
      clock := now;
      if ms <= 0 {
        return;
      }
      var target := now + ms;
      if target > cooldownUntil {
        cooldownUntil := target;
      }
      log := log + [CooledDown(target)];
      RequestPump(ms);
    }

    method StartQueuedTask(id: nat, now: int)
      modifies this
      ensures Model() == old(Model()).(now := now, running := old(running) + {id}, activeCount := old(activeCount) + 1,
                                       lastRunAt := now, log := old(log) + [Started(id, now)])
    {
      activeCount := activeCount + 1;
      lastRunAt, clock := now, now;
      running := running + {id};
      log := log + [Started(id, now)];
    }

    /** The body of the pump's loop; false means the pump returns. */
    method PumpOnce(now: int, startedAt: int, jitter: int) returns (again: bool)
      requires pumping && queue != [] && activeCount < options.maxConcurrent
      modifies this
      ensures Model() == Iterate(options, old(Model()).(now := now), startedAt, jitter)
      ensures again == pumping && (again ==> |queue| < |old(queue)|)
    {
      clock := now;
      if cooldownUntil > now {
        RequestPump(cooldownUntil - now);
        pumping := false;
        return false;
      }
      var spacingWaitMs := Max(0, options.minTimeMs - (now - lastRunAt));
      if spacingWaitMs + jitter > 0 {
        RequestPump(spacingWaitMs + jitter);
        pumping := false;
        return false;
      }
      var next := queue[0];
      queue := queue[1..];
      if next !in settled {
        StartQueuedTask(next, startedAt);
      }
      return true;
    }

    /** The timer callback: the pump runs its whole loop. The `k`-th iteration reads the
        clock as `time(2 * k)`, and once more as `time(2 * k + 1)` if it starts a task. */
    method Pump(time: nat -> int, draw: nat -> int)
      requires pumpScheduled && !pumping
      modifies this
      ensures Model() == PumpRun(options, old(Model()).(pumpDue := None, pumping := true), time, draw, 0)
      ensures !pumping
    {
      pumpScheduled := false;
      pumping := true;
      ghost var start := Model();
      var k := 0;
      while |queue| > 0 && activeCount < options.maxConcurrent
        invariant pumping
        invariant PumpRun(options, Model(), time, draw, k) == PumpRun(options, start, time, draw, 0)
        decreases |queue|
      {
        var again := PumpOnce(time(2 * k), time(2 * k + 1), draw(k));
        k := k + 1;
        if !again {
          return;
        }
      }
      clock := time(2 * k);
      pumping := false;
    }

    method SettleTask(id: nat)
      modifies this
      ensures Model() == OnSettle(old(Model()), id)
    {
      if id in running {
        running := running - {id};
        releasing := releasing + {id};
        settled := settled + {id};
        log := log + [Finished(id)];
      }
    }

    /** The `finally` callback of a started task. */
    method ReleaseSlot(id: nat)
      requires id in releasing
      modifies this
      ensures Model() == OnRelease(old(Model()), id)
      ensures activeCount == Max(0, old(activeCount) - 1) && pumpScheduled
    {
      releasing := releasing - {id};
      activeCount := Max(0, activeCount - 1);
      RequestPump(0);
    }
  }
}
