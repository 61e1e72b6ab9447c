/**
 Process steps and their five-minute claims (src/repositories/processStepRepository.ts).
 A claim checks status and expiry; every later report is written by id alone and leaves the
 token and the expiry in place. Times are in seconds and the clock never goes back.
 */
module ProcessSteps {
  import opened Common

  datatype Status = PENDING | RUNNING | SUCCEEDED | FAILED | DEAD_LETTERED | CANCELLED

  datatype Row = Row(queue: string, status: Status, token: Option<nat>, expiresAt: Option<int>)

  datatype Report = Complete | Fail | DeadLetter | Cancel

  datatype Event = Claimed(at: int, token: nat) | Reported(report: Report)

  datatype State = State(now: int, nextToken: nat, rows: map<nat, Row>, history: map<nat, seq<Event>>)

  datatype Step =
    | Tick(to: int)
    | Create(id: nat, queue: string)
    | Claim(id: nat)
    | Write(id: nat, report: Report)

  const CLAIM_SECONDS := 5 * 60

  function Init(now: int): State {
    State(now, 0, map[], map[])
  }

  function History(s: State, id: nat): seq<Event> {
    if id in s.history then s.history[id] else []
  }

  predicate Claimable(row: Row, now: int) {
    && row.status in {PENDING, FAILED}
    && (row.token.None? || row.expiresAt.None? || row.expiresAt.value < now)
  }

  function StatusAfter(report: Report): Status {
    match report
    case Complete => SUCCEEDED
    case Fail => FAILED
    case DeadLetter => DEAD_LETTERED
    case Cancel => CANCELLED
  }

  function Next(s: State, step: Step): State {
    match step
    case Tick(to) => if to < s.now then s else s.(now := to)
    case Create(id, queue) =>
      if id in s.rows then s
      else s.(rows := s.rows[id := Row(queue, PENDING, None, None)], history := s.history[id := []])
    case Claim(id) =>
      if id !in s.rows || !Claimable(s.rows[id], s.now) then s
      else State(s.now, s.nextToken + 1,
                 s.rows[id := Row(s.rows[id].queue, RUNNING, Some(s.nextToken), Some(s.now + CLAIM_SECONDS))],
                 s.history[id := History(s, id) + [Claimed(s.now, s.nextToken)]])
    case Write(id, report) =>
      if id !in s.rows then s
      else s.(rows := s.rows[id := s.rows[id].(status := StatusAfter(report))],
              history := s.history[id := History(s, id) + [Reported(report)]])
  }

  function Exec(s: State, steps: seq<Step>): State
    decreases |steps|
  {
    if steps == [] then s else Exec(Next(s, steps[0]), steps[1..])
  }

  // ---------- what every interleaving keeps ----------

  /** When and under which token the step was last claimed. */
  function LastClaim(h: seq<Event>): Option<Event> {
    if h == [] then None
    else if h[|h| - 1].Claimed? then Some(h[|h| - 1]) else LastClaim(h[..|h| - 1])
  }

  predicate ClaimTook(e: Event, token: Option<nat>, expiresAt: Option<int>) {
    e.Claimed? && token == Some(e.token) && expiresAt == Some(e.at + CLAIM_SECONDS)
  }

  predicate StatusFits(row: Row, h: seq<Event>) {
    if h == [] then row.status == PENDING
    else if h[|h| - 1].Claimed? then row.status == RUNNING
    else row.status == StatusAfter(h[|h| - 1].report)
  }

  ghost predicate ClaimsFollowFailures(h: seq<Event>) {
    forall j :: 0 < j < |h| && h[j].Claimed? ==> h[j - 1] == Reported(Fail)
  }

  ghost predicate ClaimsSpaced(h: seq<Event>) {
    forall i, j :: 0 <= i < j < |h| && h[i].Claimed? && h[j].Claimed? ==> h[i].at + CLAIM_SECONDS < h[j].at
  }

  ghost predicate LastIsLatest(h: seq<Event>) {
    forall i :: 0 <= i < |h| && h[i].Claimed? ==>
      LastClaim(h).Some? && LastClaim(h).value.Claimed? && h[i].at <= LastClaim(h).value.at
  }

  ghost predicate Tracked(row: Row, h: seq<Event>) {
    && StatusFits(row, h) && ClaimsFollowFailures(h) && ClaimsSpaced(h) && LastIsLatest(h)
    && (if LastClaim(h).None? then row.token.None? && row.expiresAt.None?
        else ClaimTook(LastClaim(h).value, row.token, row.expiresAt))
  }

  ghost predicate Inv(s: State) {
    && s.rows.Keys == s.history.Keys
    && (forall id <- s.rows :: Tracked(s.rows[id], s.history[id]))
  }

  lemma {:induction false} LastClaimGrows(h: seq<Event>, e: Event)
    ensures LastClaim(h + [e]) == if e.Claimed? then Some(e) else LastClaim(h)
  {
    assert (h + [e])[..|h|] == h;
  }

  lemma {:induction false} ClaimKeepsTracked(row: Row, h: seq<Event>, now: int, token: nat)
    requires Tracked(row, h) && Claimable(row, now)
    ensures Tracked(Row(row.queue, RUNNING, Some(token), Some(now + CLAIM_SECONDS)), h + [Claimed(now, token)])
  {
    hide LastClaim;
    LastClaimGrows(h, Claimed(now, token));
  }

  lemma {:induction false} WriteKeepsTracked(row: Row, h: seq<Event>, report: Report)
    requires Tracked(row, h)
    ensures Tracked(row.(status := StatusAfter(report)), h + [Reported(report)])
  {
    hide LastClaim;
    LastClaimGrows(h, Reported(report));
  }

  lemma {:induction false} RowStepKeepsInv(s: State, t: State, id: nat)
    requires Inv(s) && id in s.rows && id in t.rows && id in t.history
    requires t.rows == s.rows[id := t.rows[id]] && t.history == s.history[id := t.history[id]]
    requires Tracked(t.rows[id], t.history[id])
    ensures Inv(t)
  {
    hide Tracked;
  }

  lemma {:induction false} CreateKeepsInv(s: State, id: nat, queue: string)
    requires Inv(s)
    ensures Inv(Next(s, Create(id, queue)))
  {}

  lemma {:induction false} StepKeepsInv(s: State, step: Step)
    requires Inv(s)
    ensures Inv(Next(s, step))
  {
    hide Tracked, Claimable;
    match step
    case Tick(to) =>
    case Create(id, queue) => CreateKeepsInv(s, id, queue);
    case Claim(id) =>
      if id in s.rows && Claimable(s.rows[id], s.now) {
        ClaimKeepsTracked(s.rows[id], s.history[id], s.now, s.nextToken);
        RowStepKeepsInv(s, Next(s, step), id);
      }
    case Write(id, report) =>
      if id in s.rows {
        WriteKeepsTracked(s.rows[id], s.history[id], report);
        RowStepKeepsInv(s, Next(s, step), id);
      }
  }

  lemma {:induction false} RunKeepsInv(s: State, steps: seq<Step>)
    requires Inv(s)
    ensures Inv(Exec(s, steps))
    decreases |steps|
  {
    if steps != [] {
      StepKeepsInv(s, steps[0]);
      RunKeepsInv(Next(s, steps[0]), steps[1..]);
    }
  }

  lemma {:induction false} Reachable(now: int, steps: seq<Step>, id: nat)
    requires id in Exec(Init(now), steps).rows
    ensures var s := Exec(Init(now), steps);
      Tracked(s.rows[id], History(s, id))
  {
    RunKeepsInv(Init(now), steps);
  }

  lemma {:induction false} NoRowNoHistory(now: int, steps: seq<Step>, id: nat)
    requires History(Exec(Init(now), steps), id) != []
    ensures id in Exec(Init(now), steps).rows
  {
    RunKeepsInv(Init(now), steps);
  }

  // ---------- results over all interleavings ----------

  /** A step is claimed again only right after a failure was reported, and more than five
      minutes after every earlier claim of it. */
  lemma {:induction false} ReclaimNeedsFailureAndFiveMinutes(now: int, steps: seq<Step>, id: nat, i: nat, j: nat)
    requires var h := History(Exec(Init(now), steps), id);
      i < j < |h| && h[i].Claimed? && h[j].Claimed?
    ensures var h := History(Exec(Init(now), steps), id);
      h[j - 1] == Reported(Fail) && i < j - 1 && h[i].at + CLAIM_SECONDS < h[j].at
  {
    NoRowNoHistory(now, steps, id);
    Reachable(now, steps, id);
  }

  /** In every run, a step can be claimed exactly when nothing has happened to it yet, or the
      last report was a failure and its last claim, if any, is over five minutes old. */
  lemma {:induction false} ClaimableIff(now: int, steps: seq<Step>, id: nat)
    requires id in Exec(Init(now), steps).rows
    ensures var s := Exec(Init(now), steps);
      var h := History(s, id);
      Claimable(s.rows[id], s.now) <==>
        || h == []
        || (h[|h| - 1] == Reported(Fail) &&
            (LastClaim(h).None? || (LastClaim(h).value.Claimed? && LastClaim(h).value.at + CLAIM_SECONDS < s.now)))
  {
    Reachable(now, steps, id);
  }

  /** In every run the status is what the last thing that happened to the step left, and the
      expiry is five minutes - three hundred seconds - after its last claim. */
  lemma {:induction false} RowLaw(now: int, steps: seq<Step>, id: nat)
    requires id in Exec(Init(now), steps).rows
    ensures var row, h := Exec(Init(now), steps).rows[id], History(Exec(Init(now), steps), id);
      && (row.status == PENDING <==> h == [])
      && (row.status == RUNNING <==> h != [] && h[|h| - 1].Claimed?)
      && (row.status == SUCCEEDED <==> h != [] && h[|h| - 1] == Reported(Complete))
      && (row.status == FAILED <==> h != [] && h[|h| - 1] == Reported(Fail))
      && (row.status == DEAD_LETTERED <==> h != [] && h[|h| - 1] == Reported(DeadLetter))
      && (row.status == CANCELLED <==> h != [] && h[|h| - 1] == Reported(Cancel))
      && (LastClaim(h).None? ==> row.token == None && row.expiresAt == None)
      && (LastClaim(h).Some? && LastClaim(h).value.Claimed? ==>
            row.token == Some(LastClaim(h).value.token) && row.expiresAt == Some(LastClaim(h).value.at + 300))
  {
    Reachable(now, steps, id);
  }

  /** The step waits for a worker of the queue: pending or failed, and past any expiry. */
  predicate OpenStep(row: Row, queue: string, now: int) {
    && row.queue == queue && (row.status == PENDING || row.status == FAILED)
    && (row.token.Some? && row.expiresAt.Some? ==> row.expiresAt.value < now)
  }

  /** A claim takes exactly a step that waits, under a new token and for three hundred seconds; a
      report changes the status of a step alone, whatever it was; each enters the history. */
  lemma {:induction false} StepLaw(s: State, id: nat, report: Report)
    ensures var t := Next(s, Claim(id));
      if id in s.rows && OpenStep(s.rows[id], s.rows[id].queue, s.now) then
        && t.rows == s.rows[id := Row(s.rows[id].queue, RUNNING, Some(s.nextToken), Some(s.now + 300))]
        && t.history == s.history[id := History(s, id) + [Claimed(s.now, s.nextToken)]]
        && t.nextToken == s.nextToken + 1 && t.now == s.now
      else t == s
    ensures var t := Next(s, Write(id, report));
      if id in s.rows then
        && t.rows == s.rows[id := s.rows[id].(status := t.rows[id].status)]
        && t.history == s.history[id := History(s, id) + [Reported(report)]]
        && t.nextToken == s.nextToken && t.now == s.now
      else t == s
    ensures id in s.rows ==> id in Next(s, Write(id, report)).rows
  {}

  /** A created step waits in its queue with no claim behind it; creating one that exists, from
      whichever queue, changes nothing. */
  lemma {:induction false} CreateLaw(now: int, steps: seq<Step>, id: nat, queue: string)
    ensures var s := Exec(Init(now), steps);
      var t := Next(s, Create(id, queue));
      if id in s.rows then t == s
      else
        && t == s.(rows := t.rows, history := t.history)
        && t.rows == s.rows[id := Row(queue, PENDING, None, None)] && t.history == s.history[id := []]
        && OpenStep(t.rows[id], queue, s.now)
  {}

  /** So a success does not last: a step that succeeded runs again once a late failure has been
      reported and the claim is five minutes old. */
  lemma {:induction false} SuccessCanRunAgain(id: nat, queue: string)
    ensures
      var succeeded := [Create(id, queue), Claim(id), Write(id, Complete)];
      var later := [Write(id, Fail), Tick(CLAIM_SECONDS + 1), Claim(id)];
      var s, t := Exec(Init(0), succeeded), Exec(Exec(Init(0), succeeded), later);
      && id in s.rows && s.rows[id].status == SUCCEEDED
      && id in t.rows && t.rows[id].status == RUNNING && t.rows[id].token != s.rows[id].token
  {
    var s := Next(Next(Next(Init(0), Create(id, queue)), Claim(id)), Write(id, Complete));
    ExecThree(Init(0), Create(id, queue), Claim(id), Write(id, Complete));
    assert s.rows[id] == Row(queue, SUCCEEDED, Some(0), Some(CLAIM_SECONDS)) && s.now == 0 && s.nextToken == 1;
    ExecThree(s, Write(id, Fail), Tick(CLAIM_SECONDS + 1), Claim(id));
  }

  lemma {:induction false} ExecThree(s: State, a: Step, b: Step, c: Step)
    ensures Exec(s, [a, b, c]) == Next(Next(Next(s, a), b), c)
  {
    hide Next;
    assert [a, b, c][1..] == [b, c] && [b, c][1..] == [c] && [c][1..] == [];
    assert Exec(Next(Next(s, a), b), [c]) == Next(Next(Next(s, a), b), c);
  }

  // ---------- the repository ----------

  /** Nothing of the queue in `ids` that could be claimed was passed over. */
  ghost predicate NoneMissed(ids: seq<nat>, rows: map<nat, Row>, locked: set<nat>, queue: string, now: int) {
    forall id <- ids | id in rows && id !in locked :: !OpenStep(rows[id], queue, now)
  }

  class ProcessStepRepository {
    var now: int
    var nextToken: nat
    var rows: map<nat, Row>
    ghost var history: map<nat, seq<Event>>

    constructor (now: int)
      ensures Value() == Init(now)
    {
      this.now := now;
      nextToken := 0;
      rows := map[];
      history := map[];
    }

    ghost function Value(): State
      reads this
    {
      State(now, nextToken, rows, history)
    }

    /** Takes the first step of the queue, oldest first, that is claimable and not locked. */
    method ClaimNext(order: seq<nat>, locked: set<nat>, queue: string) returns (r: Option<(nat, nat)>)
      modifies this`rows, this`history, this`nextToken
      ensures r.None? ==> Value() == old(Value())
      ensures r.None? ==> NoneMissed(order, rows, locked, queue, now)
      ensures r.Some? ==>
        && Value() == Next(old(Value()), Claim(r.value.0))
        && r.value.0 in old(rows) && r.value.0 !in locked
        && OpenStep(old(rows)[r.value.0], queue, now) && r.value.1 == old(nextToken)
        && exists k :: 0 <= k < |order| && order[k] == r.value.0 &&
             NoneMissed(order[..k], old(rows), locked, queue, now)
    {
      for i := 0 to |order|
        invariant Value() == old(Value())
        invariant NoneMissed(order[..i], rows, locked, queue, now)
      {
        var id := order[i];
        if id in rows && id !in locked && rows[id].queue == queue {
          var token := ClaimById(id);
          if token.Some? {
            return Some((id, token.value));
          }
        }
        assert order[..i + 1] == order[..i] + [id];
      }
      assert order[..|order|] == order;
      return None;
    }

    method ClaimById(id: nat) returns (r: Option<nat>)
      modifies this`rows, this`history, this`nextToken
      ensures Value() == Next(old(Value()), Claim(id))
      ensures r ==
        if id in old(rows) && OpenStep(old(rows)[id], old(rows)[id].queue, now) then Some(old(nextToken)) else None
    {
      if id !in rows || !Claimable(rows[id], now) {
        return None;
      }
      r := Some(nextToken);
      history := history[id := History(Value(), id) + [Claimed(now, nextToken)]];
      rows := rows[id := Row(rows[id].queue, RUNNING, Some(nextToken), Some(now + CLAIM_SECONDS))];
      nextToken := nextToken + 1;
    }

    /** `complete`, `fail`, `deadLetter` and `cancel`. */
    method WriteReport(id: nat, report: Report)
      modifies this`rows, this`history
      ensures Value() == Next(old(Value()), Write(id, report))
      ensures id in old(rows) ==> id in rows && rows == old(rows)[id := old(rows)[id].(status := rows[id].status)]
      ensures id in old(rows) && report == Complete ==> rows[id].status == SUCCEEDED
      ensures id in old(rows) && report == Fail ==> rows[id].status == FAILED
      ensures id in old(rows) && report == DeadLetter ==> rows[id].status == DEAD_LETTERED
      ensures id in old(rows) && report == Cancel ==> rows[id].status == CANCELLED
    {
      if id in rows {
        history := history[id := History(Value(), id) + [Reported(report)]];
        rows := rows[id := rows[id].(status := StatusAfter(report))];
      }
    }
  }
}
