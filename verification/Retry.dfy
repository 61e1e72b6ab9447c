/**
 Bounded retries with exponential back-off (src/services/retry.ts). What the surroundings do
 on each attempt - the outcome of the work, the random draw, an abort, the caller's hook - is
 a parameter of the run. Delays are in milliseconds.
 */
module Retry {
  import opened Common
  import opened Money

  datatype Num = Finite(value: real) | NotFinite

  datatype Classification =
    RETRYABLE | NON_RETRYABLE | THROTTLED | TIMEOUT | NETWORK | AUTH | SERVER | CLIENT | UNKNOWN

  /** An error and what its message text suggests. */
  datatype Error = Error(
    classification: Option<Classification>,
    retryable: Option<bool>,
    status: Option<int>,
    retryAfterMs: Option<Num>,
    textClassification: Classification,
    textIsTransient: bool)

  datatype Options = Options(maxRetries: nat, baseDelayMs: nat, maxDelayMs: nat, jitterRatio: real)

  /** The work may succeed, reject its promise, or throw before it gives one; the last is
      outside the loop's `try`. */
  datatype Outcome = Success(value: string) | Failure(error: Error) | Crash(error: Error)

  /** Everything a run meets, by attempt. */
  datatype World = World(
    work: nat -> Outcome,
    draw: nat -> real,
    abortedBefore: nat -> bool,
    shouldRetry: Option<(Error, nat) -> bool>,
    hookThrows: nat -> Option<Error>,
    abortedAsleep: nat -> bool)

  datatype Ending = Returned(value: string) | Threw(error: Error) | ThrewAbort | EndedUnexpectedly

  datatype Report = Report(ending: Ending, calls: seq<nat>, sleeps: seq<real>)

  // ---------- options ----------

  function NormalizePositiveInt(value: Option<Num>, fallback: nat): nat {
    if value.None? then fallback
    else if value.value.NotFinite? || value.value.value < 0.0 then fallback
    else value.value.value.Floor
  }

  function NormalizeJitterRatio(value: Option<Num>, fallback: real): real {
    if value.None? then fallback
    else if value.value.NotFinite? || value.value.value < 0.0 then fallback
    else MinR(value.value.value, 1.0)
  }

  function OptionsOf(maxRetries: Option<Num>, baseDelayMs: Option<Num>, maxDelayMs: Option<Num>,
                     jitterRatio: Option<Num>): Options {
    Options(NormalizePositiveInt(maxRetries, 4), NormalizePositiveInt(baseDelayMs, 400),
            NormalizePositiveInt(maxDelayMs, 10000), NormalizeJitterRatio(jitterRatio, 0.25))
  }

  // ---------- classification ----------

  function ClassifyError(e: Error): Classification {
    if e.classification.Some? then e.classification.value
    else if e.retryable == Some(true) then RETRYABLE
    else if e.retryable == Some(false) then NON_RETRYABLE
    else if e.status == Some(429) then THROTTLED
    else if e.status == Some(401) || e.status == Some(403) then AUTH
    else if e.status.Some? && e.status.value >= 500 then SERVER
    else if e.status.Some? && e.status.value >= 400 then CLIENT
    else e.textClassification
  }

  predicate IsRetryable(e: Error) {
    match ClassifyError(e)
    case THROTTLED | TIMEOUT | NETWORK | SERVER | RETRYABLE => true
    case AUTH | CLIENT | NON_RETRYABLE => false
    case UNKNOWN => e.textIsTransient
  }

  predicate Retries(w: World, e: Error, attempt: nat) {
    if w.shouldRetry.Some? then w.shouldRetry.value(e, attempt) else IsRetryable(e)
  }

  // ---------- delays ----------

  function Pow2(n: nat): nat {
    if n == 0 then 1 else 2 * Pow2(n - 1)
  }

  function JitterMax(delay: real, ratio: real): int {
    Max(50, (delay * ratio).Floor)
  }

  function Jitter(jitterMax: int, draw: real): int {
    (draw * jitterMax as real).Floor
  }

  function AddJitter(delay: real, ratio: real, maxDelay: nat, draw: real): real {
    MinR(maxDelay as real, delay + Jitter(JitterMax(delay, ratio), draw) as real)
  }

  function RetryAfter(e: Error): Option<real> {
    if e.retryAfterMs.Some? && e.retryAfterMs.value.Finite? && e.retryAfterMs.value.value > 0.0
    then Some(e.retryAfterMs.value.value) else None
  }

  /** The delay before jitter. */
  function Planned(o: Options, attempt: nat, e: Error): real {
    var after := RetryAfter(e);
    MinR(o.maxDelayMs as real, if after.Some? then after.value else (o.baseDelayMs * Pow2(attempt)) as real)
  }

  function ComputeBackoffDelay(o: Options, attempt: nat, e: Error, draw: real): real {
    AddJitter(Planned(o, attempt, e), o.jitterRatio, o.maxDelayMs, draw)
  }

  /** `Math.random()` lies in [0, 1). */
  ghost predicate Draws(w: World) {
    forall k :: 0.0 <= w.draw(k) < 1.0
  }

  lemma {:induction false} JitterInRange(jitterMax: int, draw: real)
    requires jitterMax > 0 && 0.0 <= draw < 1.0
    ensures 0 <= Jitter(jitterMax, draw) < jitterMax
  {
    PortionOf(jitterMax as real, draw);
    var gap := (1.0 - draw) * jitterMax as real;
    assert gap > 0.0;
    assert draw * jitterMax as real == jitterMax as real - gap;
  }

  /** Every delay lies between the planned one and the maximum, and jitter adds less than a
      fixed share of the planned delay or fifty milliseconds. */
  lemma {:induction false} DelayBounds(o: Options, attempt: nat, e: Error, draw: real)
    requires 0.0 <= draw < 1.0
    ensures var d := ComputeBackoffDelay(o, attempt, e, draw);
      && Planned(o, attempt, e) <= d <= o.maxDelayMs as real
      && d < Planned(o, attempt, e) + JitterMax(Planned(o, attempt, e), o.jitterRatio) as real
  {
    hide Jitter, JitterMax;
    JitterMaxIsPositive(Planned(o, attempt, e), o.jitterRatio);
    JitterInRange(JitterMax(Planned(o, attempt, e), o.jitterRatio), draw);
  }

  lemma {:induction false} JitterMaxIsPositive(delay: real, ratio: real)
    ensures JitterMax(delay, ratio) > 0
  {}

  /** Without a retry-after each delay lies between min(maxDelay, base * 2^attempt) and
      maxDelay. */
  lemma {:induction false} ExponentialDelayBounds(o: Options, attempt: nat, e: Error, draw: real)
    requires 0.0 <= draw < 1.0 && RetryAfter(e).None?
    ensures var d := ComputeBackoffDelay(o, attempt, e, draw);
      MinR(o.maxDelayMs as real, (o.baseDelayMs * Pow2(attempt)) as real) <= d <= o.maxDelayMs as real
  {
    DelayBounds(o, attempt, e, draw);
  }

  // ---------- a run ----------

  /** The attempt fails, is retried, and its sleep runs to the end. */
  predicate Continues(o: Options, w: World, attempt: nat) {
    && !w.abortedBefore(attempt)
    && w.work(attempt).Failure?
    && Retries(w, w.work(attempt).error, attempt)
    && attempt < o.maxRetries
    && w.hookThrows(attempt).None?
    && !w.abortedAsleep(attempt)
  }

  function DelayAt(o: Options, w: World, attempt: nat): real {
    if w.work(attempt).Failure? then ComputeBackoffDelay(o, attempt, w.work(attempt).error, w.draw(attempt)) else 0.0
  }

  function Attempts(count: nat): (r: seq<nat>)
    ensures |r| == count && forall i :: 0 <= i < count ==> r[i] == i
  {
    seq(count, i => i)
  }

  function Delays(o: Options, w: World, count: nat): (r: seq<real>)
    ensures |r| == count && forall i :: 0 <= i < count ==> r[i] == DelayAt(o, w, i)
  {
    if count == 0 then [] else Delays(o, w, count - 1) + [DelayAt(o, w, count - 1)]
  }

  /** What a run that stops at attempt `k` reports. A sleep that is aborted was still begun. */
  function ReportAt(o: Options, w: World, k: nat): Report {
    if w.abortedBefore(k) then Report(ThrewAbort, Attempts(k), Delays(o, w, k))
    else if w.work(k).Success? then Report(Returned(w.work(k).value), Attempts(k + 1), Delays(o, w, k))
    else if w.work(k).Crash? then Report(Threw(w.work(k).error), Attempts(k + 1), Delays(o, w, k))
    else
      var e := w.work(k).error;
      if !Retries(w, e, k) || k >= o.maxRetries then Report(Threw(e), Attempts(k + 1), Delays(o, w, k))
      else if w.hookThrows(k).Some? then Report(Threw(w.hookThrows(k).value), Attempts(k + 1), Delays(o, w, k))
      else Report(ThrewAbort, Attempts(k + 1), Delays(o, w, k + 1))
  }

  /** The first attempt that does not lead to another. */
  function StopsAt(o: Options, w: World, from: nat): (k: nat)
    requires from <= o.maxRetries
    ensures from <= k <= o.maxRetries && !Continues(o, w, k)
    ensures forall j :: from <= j < k ==> Continues(o, w, j)
    decreases o.maxRetries - from
  {
    if Continues(o, w, from) then StopsAt(o, w, from + 1) else from
  }

  function Run(o: Options, w: World): Report {
    ReportAt(o, w, StopsAt(o, w, 0))
  }

  /** The loop. The statement after it is never reached. */
  method WithRetry(o: Options, w: World) returns (r: Report)
    ensures r == Run(o, w)
  {
    var attempt := 0;
    var calls: seq<nat> := [];
    var sleeps: seq<real> := [];
    while attempt <= o.maxRetries
      invariant 0 <= attempt <= o.maxRetries
      invariant StopsAt(o, w, attempt) == StopsAt(o, w, 0)
      invariant calls == Attempts(attempt) && sleeps == Delays(o, w, attempt)
      decreases o.maxRetries - attempt
    {
      if w.abortedBefore(attempt) {
        return Report(ThrewAbort, calls, sleeps);
      }
      calls := calls + [attempt];
      assert calls == Attempts(attempt + 1);
      var outcome := w.work(attempt);
      if outcome.Crash? {
        return Report(Threw(outcome.error), calls, sleeps);
      }
      if outcome.Success? {
        return Report(Returned(outcome.value), calls, sleeps);
      }
      if !Retries(w, outcome.error, attempt) || attempt >= o.maxRetries {
        return Report(Threw(outcome.error), calls, sleeps);
      }
      var delay := ComputeBackoffDelay(o, attempt, outcome.error, w.draw(attempt));
      if w.hookThrows(attempt).Some? {
        return Report(Threw(w.hookThrows(attempt).value), calls, sleeps);
      }
      sleeps := sleeps + [delay];
      if w.abortedAsleep(attempt) {
        return Report(ThrewAbort, calls, sleeps);
      }
      attempt := attempt + 1;
    }
    assert false;
    r := Report(EndedUnexpectedly, calls, sleeps);
  }

  // ---------- what every run keeps ----------

  /** The work is called on attempts 0, 1, ..., in order and without gaps, at most maxRetries
      times after the first; attempt k is made exactly when every earlier one led on and no
      abort came before it. */
  lemma {:induction false} CallsAre(o: Options, w: World)
    ensures var r := Run(o, w);
      && r.calls == Attempts(|r.calls|) && |r.calls| <= o.maxRetries + 1
      && r.ending != EndedUnexpectedly
      && (forall k :: k in r.calls <==>
            0 <= k <= o.maxRetries && !w.abortedBefore(k) && forall j :: 0 <= j < k ==> Continues(o, w, j))
  {
    hide Continues, Retries, Delays;
    var r, stop := Run(o, w), StopsAt(o, w, 0);
    forall k: nat
      ensures k in r.calls <==> k < |r.calls|
    {
      if k < |r.calls| {
        assert r.calls[k] == k;
      }
    }
    forall k: nat | k < stop
      ensures !w.abortedBefore(k)
    {
      ContinuesIs(o, w, k);
    }
  }

  lemma {:induction false} ContinuesIs(o: Options, w: World, k: nat)
    ensures Continues(o, w, k) ==> !w.abortedBefore(k) && w.work(k).Failure? && k < o.maxRetries
  {}

  /** A run returns the first success, and only a success. */
  lemma {:induction false} ReturnsFirstSuccess(o: Options, w: World, value: string)
    ensures Run(o, w).ending == Returned(value) <==>
      exists k :: 0 <= k <= o.maxRetries && (forall j :: 0 <= j < k ==> Continues(o, w, j))
                  && !w.abortedBefore(k) && w.work(k) == Success(value)
  {
    var stop := StopsAt(o, w, 0);
    if Run(o, w).ending == Returned(value) {
      assert w.work(stop) == Success(value);
    }
    forall k: nat | k <= o.maxRetries && (forall j :: 0 <= j < k ==> Continues(o, w, j))
                    && !w.abortedBefore(k) && w.work(k) == Success(value)
      ensures Run(o, w).ending == Returned(value)
    {
      ContinuesIs(o, w, k);
      assert stop == k;
    }
  }

  ghost function Total(ms: seq<real>): real {
    if ms == [] then 0.0 else Total(ms[..|ms| - 1]) + ms[|ms| - 1]
  }

  lemma {:induction false} TotalAtMost(ms: seq<real>, bound: real)
    requires bound >= 0.0 && forall i :: 0 <= i < |ms| ==> 0.0 <= ms[i] <= bound
    ensures 0.0 <= Total(ms) <= |ms| as real * bound
  {
    if ms != [] {
      TotalAtMost(ms[..|ms| - 1], bound);
      assert |ms| as real * bound == (|ms| - 1) as real * bound + bound;
    }
  }

  /** A run sleeps at most maxRetries times, each time at most maxDelay, so at most
      maxRetries * maxDelay in all. */
  lemma {:induction false} SleepIsBounded(o: Options, w: World)
    requires Draws(w)
    ensures var r := Run(o, w);
      && |r.sleeps| <= o.maxRetries
      && (forall i :: 0 <= i < |r.sleeps| ==>
            r.sleeps[i] == DelayAt(o, w, i) && 0.0 <= r.sleeps[i] <= o.maxDelayMs as real)
      && Total(r.sleeps) <= (o.maxRetries * o.maxDelayMs) as real
  {
    SleepsAre(o, w);
    hide Run, DelayAt;
    var r := Run(o, w);
    forall i | 0 <= i < |r.sleeps|
      ensures 0.0 <= r.sleeps[i] <= o.maxDelayMs as real
    {
      DelayNotNegative(o, w, i);
    }
    TotalAtMost(r.sleeps, o.maxDelayMs as real);
    CountTimesBound(|r.sleeps|, o.maxRetries, o.maxDelayMs);
  }

  lemma {:induction false} SleepsAre(o: Options, w: World)
    ensures var r := Run(o, w);
      |r.sleeps| <= o.maxRetries && r.sleeps == Delays(o, w, |r.sleeps|)
  {
    hide DelayAt, Retries, Continues;
  }

  lemma {:induction false} DelayNotNegative(o: Options, w: World, i: nat)
    requires Draws(w)
    ensures 0.0 <= DelayAt(o, w, i) <= o.maxDelayMs as real
  {
    if w.work(i).Failure? {
      DelayBounds(o, i, w.work(i).error, w.draw(i));
      hide ComputeBackoffDelay;
      ProductNotNegative(o.baseDelayMs, Pow2(i));
    }
  }

  lemma {:induction false} ProductNotNegative(a: nat, b: nat)
    ensures a * b >= 0
  {}

  lemma {:induction false} CountTimesBound(count: nat, limit: nat, bound: nat)
    requires count <= limit
    ensures count as real * bound as real <= (limit * bound) as real
  {
    ProductNotNegative(limit - count, bound);
    assert (limit - count) * bound == limit * bound - count * bound;
    assert (count * bound) as real == count as real * bound as real;
  }

  /** A finite option that is not negative. */
  predicate Usable(value: Option<Num>) {
    value.Some? && value.value.Finite? && value.value.value >= 0.0
  }

  /** `r` is the usable option without its fraction, or the fallback. */
  predicate WholeOr(value: Option<Num>, fallback: nat, r: nat) {
    if Usable(value) then r as real <= value.value.value < r as real + 1.0 else r == fallback
  }

  /** Each option on its own is used without its fraction, or falls back - to 4 retries, 400 ms
      and 10 s - when it is left out, not finite or negative; the jitter ratio likewise falls
      back to a quarter, and never exceeds one. */
  lemma {:induction false} OptionsAreSane(maxRetries: Option<Num>, baseDelayMs: Option<Num>, maxDelayMs: Option<Num>,
                                          jitterRatio: Option<Num>)
    ensures var o := OptionsOf(maxRetries, baseDelayMs, maxDelayMs, jitterRatio);
      && WholeOr(maxRetries, 4, o.maxRetries)
      && WholeOr(baseDelayMs, 400, o.baseDelayMs)
      && WholeOr(maxDelayMs, 10000, o.maxDelayMs)
      && 0.0 <= o.jitterRatio <= 1.0
      && (!Usable(jitterRatio) ==> o.jitterRatio == 0.25)
      && (Usable(jitterRatio) && jitterRatio.value.value <= 1.0 ==> o.jitterRatio == jitterRatio.value.value)
      && (Usable(jitterRatio) && jitterRatio.value.value > 1.0 ==> o.jitterRatio == 1.0)
  {}

  // ---------- what decides, on the errors and delays themselves ----------

  /** Failures another attempt may cure; of an unknown one the text decides. */
  predicate Curable(c: Classification, textIsTransient: bool) {
    c in {RETRYABLE, THROTTLED, TIMEOUT, NETWORK, SERVER} || (c == UNKNOWN && textIsTransient)
  }

  /** The error's own classification comes first, then its flag, then its status, of which 429
      and those from 500 up may pass, then its text. A hook of the caller overrides them all. */
  predicate LeadsOn(w: World, e: Error, attempt: nat) {
    if w.shouldRetry.Some? then w.shouldRetry.value(e, attempt)
    else if e.classification.Some? then Curable(e.classification.value, e.textIsTransient)
    else if e.retryable.Some? then e.retryable.value
    else if e.status.Some? && e.status.value >= 400 then e.status.value == 429 || e.status.value >= 500
    else Curable(e.textClassification, e.textIsTransient)
  }

  lemma {:induction false} RetriesMeans(w: World, e: Error, attempt: nat)
    ensures Retries(w, e, attempt) <==> LeadsOn(w, e, attempt)
  {}

  lemma {:induction false} ContinuesMeans(o: Options, w: World, k: nat)
    ensures Continues(o, w, k) <==>
      && !w.abortedBefore(k) && w.work(k).Failure? && LeadsOn(w, w.work(k).error, k) && k < o.maxRetries
      && w.hookThrows(k).None? && !w.abortedAsleep(k)
  {
    if w.work(k).Failure? {
      RetriesMeans(w, w.work(k).error, k);
    }
  }

  /** Over every run: another attempt follows one that was made exactly when it failed with an
      error that leads on, some are left, and neither the hook nor an abort stopped it. */
  lemma {:induction false} AnotherAttemptIff(o: Options, w: World, k: nat)
    ensures var calls := Run(o, w).calls;
      && (0 in calls <==> !w.abortedBefore(0))
      && (k + 1 in calls <==>
            && k in calls && k < o.maxRetries
            && w.work(k).Failure? && LeadsOn(w, w.work(k).error, k)
            && w.hookThrows(k).None? && !w.abortedAsleep(k) && !w.abortedBefore(k + 1))
  {
    var calls := Run(o, w).calls;
    CallsAre(o, w);
    ContinuesMeans(o, w, k);
    hide Run, Continues, LeadsOn;
    assert k + 1 in calls ==> Continues(o, w, k) && k in calls;
    assert k in calls && Continues(o, w, k) && !w.abortedBefore(k + 1) ==> k + 1 in calls;
  }

  /** How a run ends when attempt `last` was its last. */
  predicate EndsAfter(o: Options, w: World, last: nat, ending: Ending) {
    match w.work(last)
    case Success(value) => ending == Returned(value)
    case Crash(e) => ending == Threw(e)
    case Failure(e) =>
      if last >= o.maxRetries || !LeadsOn(w, e, last) then ending == Threw(e)
      else if w.hookThrows(last).Some? then ending == Threw(w.hookThrows(last).value)
      else ending == ThrewAbort && (w.abortedAsleep(last) || w.abortedBefore(last + 1))
  }

  /** Over every run: the last attempt alone decides the ending, and every attempt but the last
      is followed by a sleep, the last one exactly in a run that is aborted. */
  lemma {:induction false} EndingFollowsLastAttempt(o: Options, w: World)
    ensures var r := Run(o, w);
      && (r.calls == [] ==> r.ending == ThrewAbort)
      && (r.calls != [] ==> EndsAfter(o, w, |r.calls| - 1, r.ending))
      && |r.sleeps| == (if r.ending == ThrewAbort then |r.calls| else |r.calls| - 1)
  {
    var stop := StopsAt(o, w, 0);
    if w.work(stop).Failure? {
      RetriesMeans(w, w.work(stop).error, stop);
    }
    if stop > 0 {
      ContinuesMeans(o, w, stop - 1);
    }
    hide Retries, LeadsOn, Continues;
  }

  /** Without a retry-after the planned delay starts at the base and doubles with each attempt,
      up to the maximum; a retry-after that is finite and positive takes its place. */
  lemma {:induction false} PlannedDoubles(o: Options, attempt: nat, e: Error)
    ensures e.retryAfterMs.Some? && e.retryAfterMs.value.Finite? && e.retryAfterMs.value.value > 0.0 ==>
      Planned(o, attempt, e) == MinR(o.maxDelayMs as real, e.retryAfterMs.value.value)
    ensures !(e.retryAfterMs.Some? && e.retryAfterMs.value.Finite? && e.retryAfterMs.value.value > 0.0) ==>
      && Planned(o, 0, e) == MinR(o.maxDelayMs as real, o.baseDelayMs as real)
      && Planned(o, attempt + 1, e) == MinR(o.maxDelayMs as real, 2.0 * Planned(o, attempt, e))
  {
    var now := o.baseDelayMs * Pow2(attempt);
    ProductNotNegative(o.baseDelayMs, Pow2(attempt));
    assert o.baseDelayMs * Pow2(0) == o.baseDelayMs;
    assert o.baseDelayMs * Pow2(attempt + 1) == 2 * now;
  }

  /** `n` is `x` without its fraction. */
  predicate WholePart(x: real, n: int) {
    n as real <= x < n as real + 1.0
  }

  /** The bound on jitter: a share of the planned delay, and at least fifty milliseconds. */
  predicate IsCap(planned: real, ratio: real, cap: int) {
    if planned * ratio < 51.0 then cap == 50 else WholePart(planned * ratio, cap)
  }

  predicate IsDrawn(draw: real, cap: int, added: int) {
    WholePart(draw * cap as real, added)
  }

  /** `delay` is the planned one plus the drawn part of the cap, up to the maximum. */
  ghost predicate IsDelay(o: Options, planned: real, draw: real, delay: real) {
    exists cap: int, added: int ::
      && IsCap(planned, o.jitterRatio, cap) && IsDrawn(draw, cap, added)
      && delay == MinR(o.maxDelayMs as real, planned + added as real)
  }

  /** Over every run: the i-th sleep is the planned delay of the i-th error with its own draw. */
  lemma {:induction false} SleepsFollowDraws(o: Options, w: World, i: nat)
    requires i < |Run(o, w).sleeps|
    ensures w.work(i).Failure?
    ensures IsDelay(o, Planned(o, i, w.work(i).error), w.draw(i), Run(o, w).sleeps[i])
  {
    SleepsAre(o, w);
    SleepsAfterFailures(o, w, i);
    JitterIs(o, Planned(o, i, w.work(i).error), w.draw(i));
    hide Run, Planned, AddJitter, IsDelay;
  }

  lemma {:induction false} JitterIs(o: Options, planned: real, draw: real)
    ensures IsDelay(o, planned, draw, AddJitter(planned, o.jitterRatio, o.maxDelayMs, draw))
  {
    var cap := JitterMax(planned, o.jitterRatio);
    var added := Jitter(cap, draw);
    assert IsCap(planned, o.jitterRatio, cap);
    assert IsDrawn(draw, cap, added);
    assert AddJitter(planned, o.jitterRatio, o.maxDelayMs, draw) == MinR(o.maxDelayMs as real, planned + added as real);
    hide JitterMax, Jitter, IsCap, IsDrawn;
  }

  lemma {:induction false} SleepsAfterFailures(o: Options, w: World, i: nat)
    requires i < |Run(o, w).sleeps|
    ensures w.work(i).Failure?
  {
    var stop := StopsAt(o, w, 0);
    if i < stop {
      ContinuesIs(o, w, i);
    }
    hide Continues, Retries, DelayAt;
  }
}
