/**
 The comp queue kept in the listings table: the job store (src/services/jobStore.ts) and the
 comp worker's own claim (src/workers/compAnalysisWorker.ts). Each statement or transaction
 is one step. `skip locked` may leave any row out, so which row a claim picks is part of the
 step. Outcomes are written by id alone: a worker that lost its lock can
 still report, and the history says which reports found the listing in processing.

 Times are in seconds and the clock never goes back.
 */
module CompJobs {
  import opened Common

  type Id = string

  datatype Status = Pending | Retry | Processing | Completed | DeadLetter

  datatype Listing = Listing(status: Status, lockedAt: Option<int>, nextAttemptAt: Option<int>, attempts: nat)

  datatype Outcome = Success | TryAgain(nextAttemptAt: int) | GaveUp

  /** What a claim found: an open listing, one whose holder's lock had run out, or one that
      was finished and recovered. */
  datatype Kind = Opened | TookOver | Recovered

  datatype Event =
    | Claimed(at: int, ttl: int, kind: Kind)
    | RetryLocked(at: int, ttl: int)
    | Reported(outcome: Outcome, held: bool)
    | WasReset
    | Reclaimed(at: int, minutes: int)

  datatype State = State(now: int, rows: map<Id, Listing>, history: map<Id, seq<Event>>)

  datatype Step =
    | Tick(to: int)
    | Insert(id: Id)
    | ClaimNext(id: Id, ttl: int)
    | WorkerClaim(id: Id, ttl: int, recovered: bool)
    | ClaimRetry(id: Id, ttl: int)
    | Report(id: Id, outcome: Outcome)
    | Reset(id: Id)
    | ReclaimStale(minutes: int)

  function Init(now: int): State {
    State(now, map[], map[])
  }

  function History(s: State, id: Id): seq<Event> {
    if id in s.history then s.history[id] else []
  }

  predicate Due(row: Listing, now: int) {
    row.nextAttemptAt.None? || row.nextAttemptAt.value <= now
  }

  predicate LockFree(row: Listing, now: int, ttl: int) {
    row.lockedAt.None? || row.lockedAt.value < now - ttl
  }

  predicate CanClaim(row: Listing, now: int, ttl: int) {
    row.status in {Pending, Retry} && Due(row, now) && LockFree(row, now, ttl)
  }

  /** The worker's query also takes processing listings, and, when the listing's candidate was
      recovered and has no comps yet, finished ones. */
  predicate WorkerCanClaim(row: Listing, now: int, ttl: int, recovered: bool) {
    (row.status in {Pending, Retry, Processing} || recovered) && Due(row, now) && LockFree(row, now, ttl)
  }

  function KindOf(row: Listing): Kind {
    if row.status == Processing then TookOver else if row.status in {Pending, Retry} then Opened else Recovered
  }

  function AfterClaim(row: Listing, now: int): Listing {
    row.(status := Processing, lockedAt := Some(now), attempts := row.attempts + 1)
  }

  predicate CanLockForRetry(row: Listing, now: int, ttl: int) {
    row.status == Retry && Due(row, now) && LockFree(row, now, ttl)
  }

  predicate IsStale(row: Listing, now: int, minutes: int) {
    row.status == Processing && row.lockedAt.Some? && row.lockedAt.value < now - 60 * minutes
  }

  function AfterOutcome(row: Listing, outcome: Outcome): Listing {
    match outcome
    case Success => Listing(Completed, None, None, row.attempts)
    case TryAgain(next) => Listing(Retry, None, Some(next), row.attempts)
    case GaveUp => Listing(DeadLetter, None, None, row.attempts)
  }

  function Write(s: State, id: Id, row: Listing, e: Event): State {
    s.(rows := s.rows[id := row], history := s.history[id := History(s, id) + [e]])
  }

  function Next(s: State, step: Step): State {
    match step
    case Tick(to) => if to < s.now then s else s.(now := to)
    case Insert(id) =>
      if id in s.rows then s
      else s.(rows := s.rows[id := Listing(Pending, None, None, 0)], history := s.history[id := []])
    case ClaimNext(id, ttl) =>
      if id !in s.rows || !CanClaim(s.rows[id], s.now, ttl) then s
      else Write(s, id, AfterClaim(s.rows[id], s.now), Claimed(s.now, ttl, Opened))
    case WorkerClaim(id, ttl, recovered) =>
      if id !in s.rows || !WorkerCanClaim(s.rows[id], s.now, ttl, recovered) then s
      else Write(s, id, AfterClaim(s.rows[id], s.now), Claimed(s.now, ttl, KindOf(s.rows[id])))
    case ClaimRetry(id, ttl) =>
      if id !in s.rows || !CanLockForRetry(s.rows[id], s.now, ttl) then s
      else Write(s, id, s.rows[id].(lockedAt := Some(s.now)), RetryLocked(s.now, ttl))
    case Report(id, outcome) =>
      if id !in s.rows then s
      else Write(s, id, AfterOutcome(s.rows[id], outcome), Reported(outcome, s.rows[id].status == Processing))
    case Reset(id) =>
      if id !in s.rows || s.rows[id].status != Retry then s
      else Write(s, id, Listing(Pending, None, None, s.rows[id].attempts), WasReset)
    case ReclaimStale(minutes) =>
      State(s.now,
            map id <- s.rows ::
              if IsStale(s.rows[id], s.now, minutes) then AfterReclaim(s.rows[id], s.now) else s.rows[id],
            map id <- s.history ::
              if id in s.rows && IsStale(s.rows[id], s.now, minutes) then s.history[id] + [Reclaimed(s.now, minutes)]
              else s.history[id])
  }

  function AfterReclaim(row: Listing, now: int): Listing {
    Listing(Retry, None, Some(now), row.attempts)
  }

  function Exec(s: State, steps: seq<Step>): State
    decreases |steps|
  {
    if steps == [] then s else Exec(Next(s, steps[0]), steps[1..])
  }

  // ---------- what a history says ----------

  function ClaimCount(h: seq<Event>): nat {
    if h == [] then 0 else ClaimCount(h[..|h| - 1]) + if h[|h| - 1].Claimed? then 1 else 0
  }

  function ReclaimCount(h: seq<Event>): nat {
    if h == [] then 0 else ReclaimCount(h[..|h| - 1]) + if h[|h| - 1].Reclaimed? then 1 else 0
  }

  /** Claims that took a processing listing over. */
  function TakeoverCount(h: seq<Event>): nat {
    if h == [] then 0
    else TakeoverCount(h[..|h| - 1]) + if h[|h| - 1].Claimed? && h[|h| - 1].kind == TookOver then 1 else 0
  }

  /** Outcomes reported while the listing was in processing, or while it was not. */
  function OutcomeCount(h: seq<Event>, held: bool): nat {
    if h == [] then 0
    else OutcomeCount(h[..|h| - 1], held) + if h[|h| - 1].Reported? && h[|h| - 1].held == held then 1 else 0
  }

  predicate Reopens(e: Event) {
    e.Reclaimed? || (e.Reported? && e.outcome.TryAgain?)
  }

  /** No claim since the listing was last reopened, or since it was inserted. */
  predicate OpenSince(h: seq<Event>) {
    h == [] || (!h[|h| - 1].Claimed? && (Reopens(h[|h| - 1]) || OpenSince(h[..|h| - 1])))
  }

  ghost predicate ClaimsReopened(h: seq<Event>) {
    forall i, j :: 0 <= i < j < |h| && h[i].Claimed? && h[j].Claimed? && h[j].kind == Opened ==>
      ReopenedBetween(h, i, j)
  }

  ghost predicate ReopenedBetween(h: seq<Event>, i: nat, j: nat)
    requires j <= |h|
  {
    exists k :: i < k < j && Reopens(h[k])
  }

  /** What two neighbouring events say: a postponed listing is not claimed before it is due, a
      retry lock or a claim is taken over only when its time to live is past, a lock is
      reclaimed only when stale, and a recovered listing was finished. */
  predicate Timely(e: Event, f: Event) {
    && (e.Reported? && e.outcome.TryAgain? && (f.Claimed? || f.RetryLocked?) ==> e.outcome.nextAttemptAt <= f.at)
    && (e.RetryLocked? && (f.Claimed? || f.RetryLocked?) ==> e.at < f.at - f.ttl)
    && (f.Reclaimed? ==> e.Claimed? && e.at < f.at - 60 * f.minutes)
    && (f.Claimed? && f.kind == TookOver ==> e.Claimed? && e.at < f.at - f.ttl)
    && (f.Claimed? && f.kind == Recovered ==> e.Reported? && (e.outcome.Success? || e.outcome.GaveUp?))
  }

  predicate MayComeFirst(e: Event) {
    !e.Reclaimed? && (e.Claimed? ==> e.kind == Opened)
  }

  ghost predicate AllTimely(h: seq<Event>) {
    && (forall i :: 0 < i < |h| ==> Timely(h[i - 1], h[i]))
    && (h != [] ==> MayComeFirst(h[0]))
  }

  /** The row as the last event left it. */
  predicate AsLeftBy(row: Listing, h: seq<Event>) {
    if h == [] then row.status == Pending && row.lockedAt == None && row.nextAttemptAt == None
    else
      match h[|h| - 1]
      case Claimed(at, _, _) => row.status == Processing && row.lockedAt == Some(at)
      case RetryLocked(at, _) => row.status == Retry && row.lockedAt == Some(at)
      case Reported(outcome, _) => row == AfterOutcome(row, outcome)
      case WasReset => row.status == Pending && row.lockedAt == None && row.nextAttemptAt == None
      case Reclaimed(at, _) => row == AfterReclaim(row, at)
  }

  ghost predicate Tracked(row: Listing, h: seq<Event>) {
    && AsLeftBy(row, h) && AllTimely(h) && ClaimsReopened(h)
    && (row.status in {Pending, Retry} ==> OpenSince(h))
    && row.attempts == ClaimCount(h)
    && row.attempts == OutcomeCount(h, true) + ReclaimCount(h) + TakeoverCount(h) + InHand(row)
  }

  /** One for the claim in hand. */
  function InHand(row: Listing): nat {
    if row.status == Processing then 1 else 0
  }

  ghost predicate Inv(s: State) {
    && s.rows.Keys == s.history.Keys
    && (forall id <- s.rows :: Tracked(s.rows[id], s.history[id]))
  }

  lemma {:induction false} OpenMeansReopened(h: seq<Event>, i: nat)
    requires OpenSince(h) && i < |h| && h[i].Claimed?
    ensures ReopenedBetween(h, i, |h|)
  {
    if !Reopens(h[|h| - 1]) {
      OpenMeansReopened(h[..|h| - 1], i);
      var k :| i < k < |h| - 1 && Reopens(h[..|h| - 1][k]);
      assert Reopens(h[k]);
    }
  }

  lemma {:induction false} ClaimsReopenedGrows(h: seq<Event>, e: Event)
    requires ClaimsReopened(h) && (e.Claimed? && e.kind == Opened ==> OpenSince(h))
    ensures ClaimsReopened(h + [e])
  {
    var g := h + [e];
    forall i, j | 0 <= i < j < |g| && g[i].Claimed? && g[j].Claimed? && g[j].kind == Opened
      ensures ReopenedBetween(g, i, j)
    {
      if j < |h| {
        assert ReopenedBetween(h, i, j);
      } else {
        OpenMeansReopened(h, i);
      }
      var k :| i < k < j && Reopens(h[k]);
      assert Reopens(g[k]);
    }
  }

  function Adds(e: Event, held: bool): nat {
    if e.Reported? && e.held == held then 1 else 0
  }

  lemma {:induction false} HistoryGrows(h: seq<Event>, e: Event)
    ensures ClaimCount(h + [e]) == ClaimCount(h) + if e.Claimed? then 1 else 0
    ensures TakeoverCount(h + [e]) == TakeoverCount(h) + if e.Claimed? && e.kind == TookOver then 1 else 0
    ensures ReclaimCount(h + [e]) == ReclaimCount(h) + if e.Reclaimed? then 1 else 0
    ensures forall held :: OutcomeCount(h + [e], held) == OutcomeCount(h, held) + Adds(e, held)
    ensures OpenSince(h + [e]) == (!e.Claimed? && (Reopens(e) || OpenSince(h)))
  {
    assert (h + [e])[..|h|] == h;
  }

  /** One event of one listing keeps everything its history says. */
  lemma {:induction false} EventKeepsTracked(row: Listing, h: seq<Event>, e: Event, after: Listing)
    requires Tracked(row, h) && AsLeftBy(after, h + [e])
    requires if h == [] then MayComeFirst(e) else Timely(h[|h| - 1], e)
    requires match e
      case Claimed(_, _, kind) => kind == KindOf(row) && after.attempts == row.attempts + 1
      case RetryLocked(_, _) => row.status == Retry && after.attempts == row.attempts
      case Reported(_, held) => held == (row.status == Processing) && after.attempts == row.attempts
      case WasReset => row.status == Retry && after.attempts == row.attempts
      case Reclaimed(_, _) => row.status == Processing && after.attempts == row.attempts
    ensures Tracked(after, h + [e])
  {
    hide ClaimCount, ReclaimCount, OutcomeCount, TakeoverCount, OpenSince, ClaimsReopened;
    HistoryGrows(h, e);
    ClaimsReopenedGrows(h, e);
  }

  lemma {:induction false} WriteKeepsInv(s: State, id: Id, after: Listing, e: Event)
    requires Inv(s) && id in s.rows && Tracked(after, s.history[id] + [e])
    ensures Inv(Write(s, id, after, e))
  {
    hide Tracked;
  }

  lemma {:induction false} ReclaimKeepsInv(s: State, minutes: int)
    requires Inv(s)
    ensures Inv(Next(s, ReclaimStale(minutes)))
  {
    hide Tracked, AfterReclaim;
    forall id <- s.rows | IsStale(s.rows[id], s.now, minutes)
      ensures Tracked(AfterReclaim(s.rows[id], s.now), s.history[id] + [Reclaimed(s.now, minutes)])
    {
      ReclaimKeepsTracked(s.rows[id], s.history[id], s.now, minutes);
    }
  }

  lemma {:induction false} ReclaimKeepsTracked(row: Listing, h: seq<Event>, now: int, minutes: int)
    requires Tracked(row, h) && IsStale(row, now, minutes)
    ensures Tracked(AfterReclaim(row, now), h + [Reclaimed(now, minutes)])
  {
    hide ClaimCount, ReclaimCount, OutcomeCount, TakeoverCount, OpenSince, ClaimsReopened, AllTimely;
    EventKeepsTracked(row, h, Reclaimed(now, minutes), AfterReclaim(row, now));
  }

  lemma {:induction false} StepKeepsInv(s: State, step: Step)
    requires Inv(s)
    ensures Inv(Next(s, step))
  {
    hide ClaimCount, ReclaimCount, OutcomeCount, TakeoverCount, OpenSince, ClaimsReopened, AllTimely;
    match step
    case Tick(to) =>
    case Insert(id) => InsertKeepsInv(s, id);
    case ReclaimStale(minutes) => ReclaimKeepsInv(s, minutes);
    case ClaimNext(id, ttl) =>
      if id in s.rows && CanClaim(s.rows[id], s.now, ttl) {
        ClaimKeepsTracked(s.rows[id], s.history[id], s.now, ttl);
        WriteKeepsInv(s, id, AfterClaim(s.rows[id], s.now), Claimed(s.now, ttl, Opened));
      }
    case WorkerClaim(id, ttl, recovered) =>
      if id in s.rows && WorkerCanClaim(s.rows[id], s.now, ttl, recovered) {
        ClaimKeepsTracked(s.rows[id], s.history[id], s.now, ttl);
        WriteKeepsInv(s, id, AfterClaim(s.rows[id], s.now), Claimed(s.now, ttl, KindOf(s.rows[id])));
      }
    case ClaimRetry(id, ttl) =>
      if id in s.rows && CanLockForRetry(s.rows[id], s.now, ttl) {
        var after := s.rows[id].(lockedAt := Some(s.now));
        EventKeepsTracked(s.rows[id], s.history[id], RetryLocked(s.now, ttl), after);
        WriteKeepsInv(s, id, after, RetryLocked(s.now, ttl));
      }
    case Report(id, outcome) =>
      if id in s.rows {
        var after, e := AfterOutcome(s.rows[id], outcome), Reported(outcome, s.rows[id].status == Processing);
        EventKeepsTracked(s.rows[id], s.history[id], e, after);
        WriteKeepsInv(s, id, after, e);
      }
    case Reset(id) =>
      if id in s.rows && s.rows[id].status == Retry {
        var after := Listing(Pending, None, None, s.rows[id].attempts);
        EventKeepsTracked(s.rows[id], s.history[id], WasReset, after);
        WriteKeepsInv(s, id, after, WasReset);
      }
  }

  lemma {:induction false} ClaimKeepsTracked(row: Listing, h: seq<Event>, now: int, ttl: int)
    requires Tracked(row, h) && Due(row, now) && LockFree(row, now, ttl)
    ensures Tracked(AfterClaim(row, now), h + [Claimed(now, ttl, KindOf(row))])
  {
    hide ClaimCount, ReclaimCount, OutcomeCount, TakeoverCount, OpenSince, ClaimsReopened, AllTimely;
    EventKeepsTracked(row, h, Claimed(now, ttl, KindOf(row)), AfterClaim(row, now));
  }

  lemma {:induction false} InsertKeepsInv(s: State, id: Id)
    requires Inv(s)
    ensures Inv(Next(s, Insert(id)))
  {}

  lemma {:induction false} RunKeepsInv(s: State, steps: seq<Step>)
    requires Inv(s)
    ensures Inv(Exec(s, steps))
    decreases |steps|
  {
    if steps != [] {
      StepKeepsInv(s, steps[0]);
      RunKeepsInv(Next(s, steps[0]), steps[1..]);
    }
  }

  // ---------- results over all interleavings ----------

  /** In every run a listing in processing is locked, and a locked one is in processing or
      waiting to be retried. */
  lemma {:induction false} LocksFollowStatus(now: int, steps: seq<Step>, id: Id)
    requires id in Exec(Init(now), steps).rows
    ensures var row := Exec(Init(now), steps).rows[id];
      && (row.status == Processing ==> row.lockedAt.Some?)
      && (row.lockedAt.Some? ==> row.status in {Processing, Retry})
  {
    RunKeepsInv(Init(now), steps);
    assert Tracked(Exec(Init(now), steps).rows[id], Exec(Init(now), steps).history[id]);
  }

  /** Before a claim of an open listing, and after every earlier claim of it, it was marked for
      retry or reclaimed. All the store's own claims are such; the worker's others take over a
      lock that ran out, or a finished listing. */
  lemma {:induction false} ReopenedBetweenClaims(now: int, steps: seq<Step>, id: Id, i: nat, j: nat)
    requires var h := History(Exec(Init(now), steps), id);
      i < j < |h| && h[i].Claimed? && h[j].Claimed? && h[j].kind == Opened
    ensures var h := History(Exec(Init(now), steps), id);
      exists k :: i < k < j && Reopens(h[k])
  {
    RunKeepsInv(Init(now), steps);
    var h := History(Exec(Init(now), steps), id);
    assert Tracked(Exec(Init(now), steps).rows[id], h);
    assert ReopenedBetween(h, i, j);
  }

  /** Every attempt is accounted for: by an outcome that found the listing in processing, by
      a stale reclaim, by a takeover, or by the claim in hand. */
  lemma {:induction false} AttemptsAccountedFor(now: int, steps: seq<Step>, id: Id)
    requires id in Exec(Init(now), steps).rows
    ensures var s := Exec(Init(now), steps);
      var h := History(s, id);
      && s.rows[id].attempts == ClaimCount(h)
      && s.rows[id].attempts == OutcomeCount(h, true) + ReclaimCount(h) + TakeoverCount(h) + InHand(s.rows[id])
  {
    RunKeepsInv(Init(now), steps);
    assert Tracked(Exec(Init(now), steps).rows[id], Exec(Init(now), steps).history[id]);
  }

  /** Counting every reported outcome instead is right exactly when none came late, that is,
      when each found the listing in processing. Leaving takeovers out of the count as well is
      right exactly when there were as many late reports as takeovers. */
  lemma {:induction false} RawCountIffNoLateReport(now: int, steps: seq<Step>, id: Id)
    requires id in Exec(Init(now), steps).rows
    ensures var s := Exec(Init(now), steps);
      var h := History(s, id);
      var reported := OutcomeCount(h, true) + OutcomeCount(h, false);
      && (s.rows[id].attempts == reported + ReclaimCount(h) + TakeoverCount(h) + InHand(s.rows[id]) <==>
            forall k :: 0 <= k < |h| && h[k].Reported? ==> h[k].held)
      && (s.rows[id].attempts == reported + ReclaimCount(h) + InHand(s.rows[id]) <==>
            OutcomeCount(h, false) == TakeoverCount(h))
  {
    AttemptsAccountedFor(now, steps, id);
    LateCount(History(Exec(Init(now), steps), id));
  }

  lemma {:induction false} LateCount(h: seq<Event>)
    ensures OutcomeCount(h, false) == 0 <==> forall k :: 0 <= k < |h| && h[k].Reported? ==> h[k].held
  {
    if h != [] {
      LateCount(h[..|h| - 1]);
      assert forall k :: 0 <= k < |h| - 1 ==> h[..|h| - 1][k] == h[k];
    }
  }

  /** A listing is claimed and completed, and the completion is reported again: one attempt,
      two outcomes. */
  lemma {:induction false} LateReportBreaksRawCount(id: Id)
    ensures var s := Exec(Init(0), [Insert(id), ClaimNext(id, 60), Report(id, Success), Report(id, Success)]);
      var h := History(s, id);
      && id in s.rows && s.rows[id].attempts == 1
      && OutcomeCount(h, true) + OutcomeCount(h, false) + ReclaimCount(h) + InHand(s.rows[id]) == 2
  {
    var s1 := Next(Init(0), Insert(id));
    var s2 := Next(s1, ClaimNext(id, 60));
    var s3 := Next(s2, Report(id, Success));
    var s4 := Next(s3, Report(id, Success));
    ExecFour(Init(0), Insert(id), ClaimNext(id, 60), Report(id, Success), Report(id, Success));
    var claimed, done, late := Claimed(0, 60, Opened), Reported(Success, true), Reported(Success, false);
    assert s4.history[id] == [] + [claimed] + [done] + [late];
    hide Next, Exec, OutcomeCount, ReclaimCount, ClaimCount, TakeoverCount;
    NothingCounted();
    HistoryGrows([], claimed);
    HistoryGrows([] + [claimed], done);
    HistoryGrows([] + [claimed] + [done], late);
  }

  lemma {:induction false} NothingCounted()
    ensures ReclaimCount([]) == 0 && OutcomeCount([], true) == 0 && OutcomeCount([], false) == 0
  {}

  lemma {:induction false} ExecFour(s: State, a: Step, b: Step, c: Step, d: Step)
    ensures Exec(s, [a, b, c, d]) == Next(Next(Next(Next(s, a), b), c), d)
  {
    hide Next;
    assert [a, b, c, d][1..] == [b, c, d] && [b, c, d][1..] == [c, d] && [c, d][1..] == [d] && [d][1..] == [];
    assert Exec(Next(Next(Next(s, a), b), c), [d]) == Next(Next(Next(Next(s, a), b), c), d);
    assert Exec(Next(Next(s, a), b), [c, d]) == Exec(Next(Next(Next(s, a), b), c), [d]);
  }

  /** Neighbouring events of every history respect back-off times, lock lifetimes and the
      staleness limit; a reclaim directly follows the claim whose lock it takes. */
  lemma {:induction false} TimesRespected(now: int, steps: seq<Step>, id: Id, k: nat)
    requires 0 < k < |History(Exec(Init(now), steps), id)|
    ensures var h := History(Exec(Init(now), steps), id);
      Timely(h[k - 1], h[k])
  {
    RunKeepsInv(Init(now), steps);
    assert Tracked(Exec(Init(now), steps).rows[id], History(Exec(Init(now), steps), id));
  }

  // ---------- what each step does ----------

  /** In every run a row is what the last thing that happened to the listing left: its status, its
      lock and when it is due. */
  lemma {:induction false} RowLaw(now: int, steps: seq<Step>, id: Id)
    requires id in Exec(Init(now), steps).rows
    ensures var row, h := Exec(Init(now), steps).rows[id], History(Exec(Init(now), steps), id);
      && (row.status == Completed <==> h != [] && h[|h| - 1].Reported? && h[|h| - 1].outcome == Success)
      && (row.status == DeadLetter <==> h != [] && h[|h| - 1].Reported? && h[|h| - 1].outcome == GaveUp)
      && (row.status == Processing <==> h != [] && h[|h| - 1].Claimed?)
      && (row.status == Pending <==> h == [] || h[|h| - 1].WasReset?)
      && (h != [] && h[|h| - 1].Reported? && h[|h| - 1].outcome.TryAgain? ==>
            row.status == Retry && row.lockedAt == None && row.nextAttemptAt == Some(h[|h| - 1].outcome.nextAttemptAt))
      && (h != [] && h[|h| - 1].Reclaimed? ==>
            row.status == Retry && row.lockedAt == None && row.nextAttemptAt == Some(h[|h| - 1].at))
      && (h != [] && h[|h| - 1].RetryLocked? ==> row.status == Retry && row.lockedAt == Some(h[|h| - 1].at))
      && (h != [] && h[|h| - 1].Claimed? ==> row.lockedAt == Some(h[|h| - 1].at))
      && (row.status in {Completed, DeadLetter, Pending} ==> row.lockedAt == None && row.nextAttemptAt == None)
  {
    RunKeepsInv(Init(now), steps);
    var row, h := Exec(Init(now), steps).rows[id], History(Exec(Init(now), steps), id);
    assert Tracked(row, h);
    hide Exec, AllTimely, ClaimsReopened, OpenSince, ClaimCount, OutcomeCount, ReclaimCount, TakeoverCount, Inv;
  }

  /** Not postponed to a later time, and not under a lock younger than the time to live. */
  predicate Free(row: Listing, now: int, ttl: int) {
    && (row.nextAttemptAt.Some? ==> row.nextAttemptAt.value <= now)
    && (row.lockedAt.Some? ==> row.lockedAt.value + ttl < now)
  }

  predicate OpenListing(row: Listing, now: int, ttl: int) {
    (row.status == Pending || row.status == Retry) && Free(row, now, ttl)
  }

  predicate OpenForRetry(row: Listing, now: int, ttl: int) {
    row.status == Retry && Free(row, now, ttl)
  }

  predicate OpenForWorker(row: Listing, now: int, ttl: int, recovered: bool) {
    (recovered || (row.status != Completed && row.status != DeadLetter)) && Free(row, now, ttl)
  }

  predicate StaleLock(row: Listing, now: int, minutes: int) {
    row.status == Processing && row.lockedAt.Some? && row.lockedAt.value + 60 * minutes < now
  }

  /** A stale listing goes to retry, due at once; any other stays. */
  function Reopened(row: Listing, now: int, minutes: int): Listing {
    if StaleLock(row, now, minutes) then Listing(Retry, None, Some(now), row.attempts) else row
  }

  /** In processing, locked now, one attempt more; when it was due stays. */
  function HeldNow(row: Listing, now: int): Listing {
    Listing(Processing, Some(now), row.nextAttemptAt, row.attempts + 1)
  }

  /** The store claims exactly open listings, the worker also those in processing whose lock has
      run out and, if recovered, finished ones; a claim holds the listing and counts one
      attempt, and a refused claim changes nothing. */
  lemma {:induction false} ClaimLaw(s: State, id: Id, ttl: int, recovered: bool)
    ensures var t := Next(s, ClaimNext(id, ttl));
      if id in s.rows && OpenListing(s.rows[id], s.now, ttl) then
        && t.rows == s.rows[id := HeldNow(s.rows[id], s.now)]
        && t.history == s.history[id := History(s, id) + [Claimed(s.now, ttl, Opened)]] && t.now == s.now
      else t == s
    ensures var t := Next(s, WorkerClaim(id, ttl, recovered));
      if id in s.rows && OpenForWorker(s.rows[id], s.now, ttl, recovered) then
        && t.rows == s.rows[id := HeldNow(s.rows[id], s.now)] && t.now == s.now
        && t.history == s.history[id := History(s, id) + [Claimed(s.now, ttl,
             if s.rows[id].status == Processing then TookOver
             else if s.rows[id].status == Completed || s.rows[id].status == DeadLetter then Recovered else Opened)]]
      else t == s
  {}

  /** A retry lock goes to exactly the listings in retry that are free, and sets their lock alone;
      a reset takes exactly listings in retry back to pending. */
  lemma {:induction false} RetryLaw(s: State, id: Id, ttl: int)
    ensures var t := Next(s, ClaimRetry(id, ttl));
      if id in s.rows && OpenForRetry(s.rows[id], s.now, ttl) then
        && t.rows == s.rows[id := s.rows[id].(lockedAt := Some(s.now))] && t.now == s.now
        && t.history == s.history[id := History(s, id) + [RetryLocked(s.now, ttl)]]
      else t == s
    ensures var t := Next(s, Reset(id));
      if id in s.rows && s.rows[id].status == Retry then
        && t.rows == s.rows[id := Listing(Pending, None, None, s.rows[id].attempts)] && t.now == s.now
        && t.history == s.history[id := History(s, id) + [WasReset]]
      else t == s
  {}

  /** A reclaim moves exactly the stale listings to retry, due at once, and no others. */
  lemma {:induction false} ReclaimLaw(s: State, minutes: int, id: Id)
    requires s.rows.Keys == s.history.Keys && id in s.rows
    ensures var t := Next(s, ReclaimStale(minutes));
      && t.rows.Keys == s.rows.Keys && t.history.Keys == s.history.Keys && t.now == s.now
      && t.rows[id] == Reopened(s.rows[id], s.now, minutes)
      && t.history[id] == if StaleLock(s.rows[id], s.now, minutes) then s.history[id] + [Reclaimed(s.now, minutes)]
                          else s.history[id]
  {}

  // ---------- the store ----------

  ghost function RetryLocks(ids: seq<Id>, ttl: int): seq<Step> {
    if ids == [] then [] else RetryLocks(ids[..|ids| - 1], ttl) + [ClaimRetry(ids[|ids| - 1], ttl)]
  }

  lemma {:induction false} ExecAppend(s: State, steps: seq<Step>, last: Step)
    ensures Exec(s, steps + [last]) == Next(Exec(s, steps), last)
    decreases |steps|
  {
    if steps == [] {
      assert [last][1..] == [];
      assert [] + [last] == [last];
    } else {
      assert (steps + [last])[1..] == steps[1..] + [last];
      ExecAppend(Next(s, steps[0]), steps[1..], last);
    }
  }

  lemma {:induction false} LockOneMore(s: State, ids: seq<Id>, id: Id, ttl: int)
    ensures Exec(s, RetryLocks(ids + [id], ttl)) == Next(Exec(s, RetryLocks(ids, ttl)), ClaimRetry(id, ttl))
  {
    assert (ids + [id])[..|ids|] == ids;
    ExecAppend(s, RetryLocks(ids, ttl), ClaimRetry(id, ttl));
  }

  ghost predicate RetryBatch(before: map<Id, Listing>, after: map<Id, Listing>, now: int, ttl: int, picked: seq<Id>) {
    && after.Keys == before.Keys
    && (forall id <- picked :: id in before && OpenForRetry(before[id], now, ttl))
    && (forall id <- after :: after[id] == if id in picked then before[id].(lockedAt := Some(now)) else before[id])
  }

  lemma {:induction false} RetryBatchGrows(before: map<Id, Listing>, after: map<Id, Listing>, now: int, ttl: int,
                                           picked: seq<Id>, id: Id)
    requires RetryBatch(before, after, now, ttl, picked)
    requires id in after && id !in picked && CanLockForRetry(after[id], now, ttl)
    ensures RetryBatch(before, after[id := after[id].(lockedAt := Some(now))], now, ttl, picked + [id])
  {}

  /** Nothing in `ids` that is open to be claimed was passed over. */
  ghost predicate NoneOpen(ids: seq<Id>, rows: map<Id, Listing>, locked: set<Id>, now: int, ttl: int) {
    forall id <- ids | id in rows && id !in locked :: !OpenListing(rows[id], now, ttl)
  }

  /** Nothing in `ids` that could be locked for retry was passed over. */
  ghost predicate NoneMissed(ids: seq<Id>, rows: map<Id, Listing>, locked: set<Id>,
                             now: int, ttl: int, picked: seq<Id>) {
    forall id <- ids | id in rows && id !in locked :: id in picked || !OpenForRetry(rows[id], now, ttl)
  }

  /** Nothing in `ids` that the worker could claim was passed over. */
  ghost predicate NoneForWorker(ids: seq<Id>, rows: map<Id, Listing>, locked: set<Id>, recovered: set<Id>,
                                now: int, ttl: int) {
    forall id <- ids | id in rows && id !in locked :: !OpenForWorker(rows[id], now, ttl, id in recovered)
  }

  /** The batch is what the query finds first: taken from a front part of the order in which
      nothing is left, and which is all of it unless the limit was reached. */
  ghost predicate FirstOnes(order: seq<Id>, rows: map<Id, Listing>, locked: set<Id>, now: int, ttl: int, limit: nat,
                            picked: seq<Id>) {
    exists n: nat :: n <= |order| && (n == |order| || |picked| == limit)
      && (forall id <- picked :: id in order[..n] && id !in locked)
      && NoneMissed(order[..n], rows, locked, now, ttl, picked)
  }

  /** The walk has come to `n` of the order. */
  ghost predicate BatchUpTo(before: map<Id, Listing>, rows: map<Id, Listing>, now: int, ttl: int, order: seq<Id>,
                            locked: set<Id>, n: nat, picked: seq<Id>) {
    && n <= |order| && RetryBatch(before, rows, now, ttl, picked)
    && (forall id <- picked :: id in order[..n] && id !in locked)
    && NoneMissed(order[..n], rows, locked, now, ttl, picked)
  }

  lemma {:induction false} BatchStarts(rows: map<Id, Listing>, now: int, ttl: int, order: seq<Id>, locked: set<Id>)
    ensures BatchUpTo(rows, rows, now, ttl, order, locked, 0, [])
  {}

  lemma {:induction false} BatchPasses(before: map<Id, Listing>, rows: map<Id, Listing>, now: int, ttl: int,
                                       order: seq<Id>, locked: set<Id>, n: nat, picked: seq<Id>)
    requires BatchUpTo(before, rows, now, ttl, order, locked, n, picked) && n < |order|
    requires order[n] in rows && order[n] !in locked ==>
      order[n] in picked || !CanLockForRetry(rows[order[n]], now, ttl)
    ensures BatchUpTo(before, rows, now, ttl, order, locked, n + 1, picked)
  {
    hide RetryBatch;
    assert order[..n + 1] == order[..n] + [order[n]];
  }

  lemma {:induction false} BatchTakes(before: map<Id, Listing>, rows: map<Id, Listing>, now: int, ttl: int,
                                      order: seq<Id>, locked: set<Id>, n: nat, picked: seq<Id>)
    requires BatchUpTo(before, rows, now, ttl, order, locked, n, picked) && n < |order|
    requires order[n] in rows && order[n] !in locked && order[n] !in picked && CanLockForRetry(rows[order[n]], now, ttl)
    ensures BatchUpTo(before, rows[order[n] := rows[order[n]].(lockedAt := Some(now))], now, ttl, order, locked, n + 1,
                      picked + [order[n]])
  {
    RetryBatchGrows(before, rows, now, ttl, picked, order[n]);
    hide RetryBatch;
    assert order[..n + 1] == order[..n] + [order[n]];
    assert order[n] in order[..n + 1];
  }

  lemma {:induction false} BatchEnds(before: map<Id, Listing>, rows: map<Id, Listing>, now: int, ttl: int,
                                     order: seq<Id>,
                                     locked: set<Id>, n: nat, picked: seq<Id>, limit: nat)
    requires BatchUpTo(before, rows, now, ttl, order, locked, n, picked) && (n == |order| || |picked| == limit)
    ensures RetryBatch(before, rows, now, ttl, picked) && FirstOnes(order, rows, locked, now, ttl, limit, picked)
  {
    hide RetryBatch;
  }

  lemma {:induction false} NoLocks(s: State, ttl: int)
    ensures Exec(s, RetryLocks([], ttl)) == s
  {}

  class JobStore {
    var now: int
    var rows: map<Id, Listing>
    ghost var history: map<Id, seq<Event>>

    constructor (now: int)
      ensures Value() == Init(now)
    {
      this.now := now;
      rows := map[];
      history := map[];
    }

    ghost function Value(): State
      reads this
    {
      State(now, rows, history)
    }

    /** Takes the first listing, in query order, that is claimable and not locked elsewhere. */
    method ClaimNextCompJob(order: seq<Id>, locked: set<Id>, ttl: int) returns (r: Option<(Id, nat)>)
      modifies this`rows, this`history
      ensures r.None? ==> Value() == old(Value())
      ensures r.None? ==> NoneOpen(order, rows, locked, now, ttl)
      ensures r.Some? ==>
        && Value() == Next(old(Value()), ClaimNext(r.value.0, ttl))
        && r.value.0 in old(rows) && OpenListing(old(rows)[r.value.0], now, ttl) && r.value.0 !in locked
        && rows == old(rows)[r.value.0 := HeldNow(old(rows)[r.value.0], now)]
        && r.value.1 == old(rows)[r.value.0].attempts + 1
        && exists k :: 0 <= k < |order| && order[k] == r.value.0 && NoneOpen(order[..k], old(rows), locked, now, ttl)
    {
      for i := 0 to |order|
        invariant Value() == old(Value())
        invariant NoneOpen(order[..i], rows, locked, now, ttl)
      {
        var id := order[i];
        if id in rows && id !in locked && CanClaim(rows[id], now, ttl) {
          var row := rows[id];
          history := history[id := History(Value(), id) + [Claimed(now, ttl, Opened)]];
          rows := rows[id := AfterClaim(row, now)];
          return Some((id, row.attempts + 1));
        }
        assert order[..i + 1] == order[..i] + [id];
      }
      assert order[..|order|] == order;
      return None;
    }

    /** The comp worker's query. `order` holds the listings that have a candidate and have not
        ended; `recovered` those whose candidate was recovered and has no comps. */
    method ClaimNextListing(order: seq<Id>, locked: set<Id>, recovered: set<Id>, ttl: int)
      returns (r: Option<(Id, nat)>)
      modifies this`rows, this`history
      ensures r.None? ==> Value() == old(Value())
      ensures r.None? ==> NoneForWorker(order, rows, locked, recovered, now, ttl)
      ensures r.Some? ==>
        var id := r.value.0;
        && Value() == Next(old(Value()), WorkerClaim(id, ttl, id in recovered))
        && id in old(rows) && OpenForWorker(old(rows)[id], now, ttl, id in recovered) && id !in locked
        && rows == old(rows)[id := HeldNow(old(rows)[id], now)]
        && r.value.1 == old(rows)[id].attempts + 1
        && exists k :: 0 <= k < |order| && order[k] == id &&
             NoneForWorker(order[..k], old(rows), locked, recovered, now, ttl)
    {
      for i := 0 to |order|
        invariant Value() == old(Value())
        invariant NoneForWorker(order[..i], rows, locked, recovered, now, ttl)
      {
        var id := order[i];
        if id in rows && id !in locked && WorkerCanClaim(rows[id], now, ttl, id in recovered) {
          var row := rows[id];
          history := history[id := History(Value(), id) + [Claimed(now, ttl, KindOf(row))]];
          rows := rows[id := AfterClaim(row, now)];
          return Some((id, row.attempts + 1));
        }
        assert order[..i + 1] == order[..i] + [id];
      }
      assert order[..|order|] == order;
      return None;
    }

    method LockForRetry(id: Id, ttl: int)
      requires id in rows && CanLockForRetry(rows[id], now, ttl)
      modifies this`rows, this`history
      ensures Value() == Next(old(Value()), ClaimRetry(id, ttl))
    {
      history := history[id := History(Value(), id) + [RetryLocked(now, ttl)]];
      rows := rows[id := rows[id].(lockedAt := Some(now))];
    }

    /** Locks up to `limit` listings that are due for retry; they stay in retry. */
    method ClaimRetryCandidates(order: seq<Id>, locked: set<Id>, limit: nat, ttl: int) returns (picked: seq<Id>)
      modifies this`rows, this`history
      ensures Value() == Exec(old(Value()), RetryLocks(picked, ttl))
      ensures RetryBatch(old(rows), rows, now, ttl, picked)
      ensures |picked| <= limit && FirstOnes(order, rows, locked, now, ttl, limit, picked)
    {
      hide Exec, RetryLocks, RetryBatch, BatchUpTo, FirstOnes;
      picked := [];
      var i := 0;
      BatchStarts(rows, now, ttl, order, locked);
      NoLocks(Value(), ttl);
      while i < |order| && |picked| < limit
        invariant i <= |order| && |picked| <= limit
        invariant Value() == Exec(old(Value()), RetryLocks(picked, ttl))
        invariant BatchUpTo(old(rows), rows, now, ttl, order, locked, i, picked)
      {
        var id := order[i];
        if id in rows && id !in locked && id !in picked && CanLockForRetry(rows[id], now, ttl) {
          LockOneMore(old(Value()), picked, id, ttl);
          BatchTakes(old(rows), rows, now, ttl, order, locked, i, picked);
          LockForRetry(id, ttl);
          picked := picked + [id];
        } else {
          BatchPasses(old(rows), rows, now, ttl, order, locked, i, picked);
        }
        i := i + 1;
      }
      BatchEnds(old(rows), rows, now, ttl, order, locked, i, picked, limit);
    }

    /** `finalizeSuccess`, `markListingForRetry` and `markListingTerminal`: by id alone. */
    method WriteOutcome(id: Id, outcome: Outcome)
      modifies this`rows, this`history
      ensures Value() == Next(old(Value()), Report(id, outcome))
      ensures id !in old(rows) ==> rows == old(rows)
      ensures id in old(rows) ==> rows.Keys == old(rows).Keys && forall x <- rows | x != id :: rows[x] == old(rows)[x]
      ensures id in old(rows) ==> rows[id].lockedAt == None && rows[id].attempts == old(rows)[id].attempts
      ensures id in old(rows) && outcome == Success ==> rows[id].status == Completed && rows[id].nextAttemptAt == None
      ensures id in old(rows) && outcome == GaveUp ==> rows[id].status == DeadLetter && rows[id].nextAttemptAt == None
      ensures id in old(rows) && outcome.TryAgain? ==>
        rows[id].status == Retry && rows[id].nextAttemptAt == Some(outcome.nextAttemptAt)
    {
      if id in rows {
        history := history[id := History(Value(), id) + [Reported(outcome, rows[id].status == Processing)]];
        rows := rows[id := AfterOutcome(rows[id], outcome)];
      }
    }

    method ResetListingToPending(id: Id) returns (changed: bool)
      modifies this`rows, this`history
      ensures Value() == Next(old(Value()), Reset(id))
      ensures changed <==> id in old(rows) && old(rows)[id].status == Retry
      ensures rows ==
        if changed then old(rows)[id := Listing(Pending, None, None, old(rows)[id].attempts)] else old(rows)
    {
      if id !in rows || rows[id].status != Retry {
        return false;
      }
      history := history[id := History(Value(), id) + [WasReset]];
      rows := rows[id := Listing(Pending, None, None, rows[id].attempts)];
      return true;
    }

    /** One statement over the whole table. */
    method ReclaimStaleProcessingLocks(minutes: int) returns (count: nat)
      modifies this`rows, this`history
      ensures Value() == Next(old(Value()), ReclaimStale(minutes))
      ensures count == |set id | id in old(rows) && StaleLock(old(rows)[id], now, minutes)|
      ensures rows.Keys == old(rows).Keys && forall id <- rows :: rows[id] == Reopened(old(rows)[id], now, minutes)
    {
      var stale := set id | id in rows && IsStale(rows[id], now, minutes);
      assert stale == set id | id in rows && StaleLock(rows[id], now, minutes);
      history := map id <- history ::
        if id in stale then history[id] + [Reclaimed(now, minutes)] else history[id];
      rows := map id <- rows :: if id in stale then AfterReclaim(rows[id], now) else rows[id];
      return |stale|;
    }
  }
}
