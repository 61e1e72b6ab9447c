/**
 Leases on work items, with fencing tokens (src/repositories/prong2Repository.ts). Each
 SQL statement or transaction is one step on a table of rows. `skip locked` may leave any
 row out, so which rows a claim picks is part of the step; a batch is claimed row by row
 at one moment. The clock never goes back, and new tokens are fresh.

 The same machine serves both tables: snapshot products, which may be scored again
 whatever their state, and candidates, some of whose writers check no token.
 */
module Leases {
  import opened Common

  datatype Table = Products | Candidates

  datatype Status =
    | Scored | Accepted | Rejected
    | Pending | RetryNeeded | NoMatch | Matched | Queued | Decided | Reviewed

  /** The statuses `saveCandidateBestMatch` may write. */
  datatype MatchStatus = FinalNoMatch | FinalMatched | FinalQueued

  datatype Row = Row(status: Status, token: Option<nat>, expiresAt: Option<int>, attempts: nat)

  datatype Event =
    | Granted(id: nat, token: nat, at: int, expiresAt: int)
    | Released(id: nat, token: nat)

  datatype State = State(
    now: int,
    nextToken: nat,
    rows: map<nat, Row>,
    watchlist: map<string, nat>,   // family key -> snapshot product behind the entry
    log: seq<Event>)

  datatype Step =
    | Tick(to: int)
    | Put(id: nat)
    | Claim(id: nat, ttl: int)
    | Accept(id: nat, token: nat, family: string)
    | Reject(id: nat, token: nat)
    | MarkNoMatch(id: nat, token: nat)
    | MarkRetryNeeded(id: nat, token: nat)
    | SaveBestMatch(id: nat, status: MatchStatus)
    | QueueOpportunity(id: nat)
    | Decide(id: nat, final: bool)

  function Init(now: int): State {
    State(now, 0, map[], map[], [])
  }

  predicate ClaimableStatus(table: Table, status: Status) {
    if table == Products then status == Scored else status in {Pending, RetryNeeded}
  }

  predicate Claimable(table: Table, row: Row, now: int) {
    ClaimableStatus(table, row.status) && (row.expiresAt.None? || row.expiresAt.value < now)
  }

  /** A new row, or `on conflict do update`, which rescores and keeps the claim columns. */
  function OnPut(table: Table, s: State, id: nat): State {
    if id !in s.rows then
      s.(rows := s.rows[id := Row(if table == Products then Scored else Pending, None, None, 0)])
    else if table == Products then
      s.(rows := s.rows[id := s.rows[id].(status := Scored)])
    else s
  }

  function OnClaim(table: Table, s: State, id: nat, ttl: int): State {
    if id !in s.rows || !Claimable(table, s.rows[id], s.now) || ttl <= 0 then s
    else
      var row := s.rows[id];
      s.(nextToken := s.nextToken + 1,
         rows := s.rows[id := Row(row.status, Some(s.nextToken), Some(s.now + ttl), row.attempts + 1)],
         log := s.log + [Granted(id, s.nextToken, s.now, s.now + ttl)])
  }

  /** `where id = $1 and claim_token = $2`. */
  predicate Matches(s: State, id: nat, token: nat) {
    id in s.rows && s.rows[id].token == Some(token)
  }

  function OnFinish(s: State, id: nat, token: nat, status: Status): State {
    if !Matches(s, id, token) then s
    else s.(rows := s.rows[id := s.rows[id].(status := status, expiresAt := None)],
            log := s.log + [Released(id, token)])
  }

  /** The watchlist is written first; a token mismatch rolls the transaction back. */
  function OnAccept(s: State, id: nat, token: nat, family: string): State {
    var upserted := s.(watchlist := s.watchlist[family := id]);
    if Matches(s, id, token) then OnFinish(upserted, id, token, Accepted) else s
  }

  function StatusOf(m: MatchStatus): Status {
    match m
    case FinalNoMatch => NoMatch
    case FinalMatched => Matched
    case FinalQueued => Queued
  }

  function OnUnfenced(s: State, id: nat, status: Status): State {
    if id !in s.rows then s
    else s.(rows := s.rows[id := s.rows[id].(status := status, expiresAt := None)])
  }

  /** The decision services move a candidate on, to a status from which it may or may not be
      queued again, and leave its claim columns alone. */
  function OnDecide(s: State, id: nat, final: bool): State {
    if id !in s.rows then s
    else s.(rows := s.rows[id := s.rows[id].(status := if final then Decided else Reviewed)])
  }

  function Next(table: Table, s: State, step: Step): State {
    match step
    case Tick(to) => if to < s.now then s else s.(now := to)
    case Put(id) => OnPut(table, s, id)
    case Claim(id, ttl) => OnClaim(table, s, id, ttl)
    case Accept(id, token, family) => if table == Products then OnAccept(s, id, token, family) else s
    case Reject(id, token) => if table == Products then OnFinish(s, id, token, Rejected) else s
    case MarkNoMatch(id, token) => if table == Candidates then OnFinish(s, id, token, NoMatch) else s
    case MarkRetryNeeded(id, token) => if table == Candidates then OnFinish(s, id, token, RetryNeeded) else s
    case SaveBestMatch(id, status) => if table == Candidates then OnUnfenced(s, id, StatusOf(status)) else s
    case QueueOpportunity(id) =>
      if table == Candidates && id in s.rows && s.rows[id].status != Decided then OnUnfenced(s, id, Queued) else s
    case Decide(id, final) => if table == Candidates then OnDecide(s, id, final) else s
  }

  function Exec(table: Table, s: State, steps: seq<Step>): State
    decreases |steps|
  {
    if steps == [] then s else Exec(table, Next(table, s, steps[0]), steps[1..])
  }

  // ---------- what every interleaving keeps ----------

  /** The token of the row's most recent claim. */
  ghost function LatestToken(log: seq<Event>, id: nat): Option<nat> {
    if log == [] then None
    else
      var e := log[|log| - 1];
      if e.Granted? && e.id == id then Some(e.token) else LatestToken(log[..|log| - 1], id)
  }

  ghost function Claims(log: seq<Event>, id: nat): nat {
    if log == [] then 0
    else
      var e := log[|log| - 1];
      Claims(log[..|log| - 1], id) + if e.Granted? && e.id == id then 1 else 0
  }

  ghost predicate FreshTokens(s: State) {
    && (forall i :: 0 <= i < |s.log| && s.log[i].Granted? ==> s.log[i].token < s.nextToken)
    && (forall i, j :: 0 <= i < j < |s.log| && s.log[i].Granted? && s.log[j].Granted? ==>
          s.log[i].token < s.log[j].token)
  }

  ghost predicate RowsMatchLog(s: State) {
    && (forall id :: id in s.rows ==>
          s.rows[id].token == LatestToken(s.log, id) && s.rows[id].attempts == Claims(s.log, id))
    && (forall id :: id !in s.rows ==> LatestToken(s.log, id) == None && Claims(s.log, id) == 0)
  }

  ghost predicate WasReleased(log: seq<Event>, id: nat, token: nat) {
    Released(id, token) in log
  }

  /** A row still carries the expiry of its latest claim, unless that claim was given back
      with its token, or a writer that checks no token left the row unclaimable. */
  ghost predicate ExpiryStands(table: Table, s: State) {
    forall i :: 0 <= i < |s.log| && s.log[i].Granted? && Matches(s, s.log[i].id, s.log[i].token) ==>
      var row := s.rows[s.log[i].id];
      || row.expiresAt == Some(s.log[i].expiresAt)
      || (row.expiresAt.None? &&
          (table == Products || ClaimableStatus(table, row.status) ==> WasReleased(s.log, s.log[i].id, s.log[i].token)))
  }

  /** A superseded claim has been given back or has run out. */
  ghost predicate OldLeasesEnded(s: State) {
    forall i :: 0 <= i < |s.log| && s.log[i].Granted? && !Matches(s, s.log[i].id, s.log[i].token) ==>
      WasReleased(s.log, s.log[i].id, s.log[i].token) || s.log[i].expiresAt < s.now
  }

  /** Whenever a row was claimed, every earlier claim of it had been given back with its own
      token or had run out. */
  ghost predicate LeasesDisjoint(log: seq<Event>) {
    forall i, j :: 0 <= i < j < |log| && log[i].Granted? && log[j].Granted? && log[i].id == log[j].id ==>
      WasReleased(log[..j], log[i].id, log[i].token) || log[i].expiresAt < log[j].at
  }

  /** A row that was never claimed, or whose latest claim was given back, has no expiry. */
  ghost predicate ClearedRows(s: State) {
    && (forall id :: id in s.rows && s.rows[id].token.None? ==> s.rows[id].expiresAt.None?)
    && (forall id :: id in s.rows && s.rows[id].token.Some? ==> s.rows[id].token.value < s.nextToken)
    && (forall id: nat, token: nat :: Released(id, token) in s.log ==> token < s.nextToken)
    && (forall id :: GivenBack(s, s, id) ==> s.rows[id].expiresAt.None?)
  }

  ghost predicate Inv(table: Table, s: State) {
    && FreshTokens(s) && RowsMatchLog(s) && ExpiryStands(table, s)
    && OldLeasesEnded(s) && LeasesDisjoint(s.log) && ClearedRows(s)
  }

  lemma {:induction false} LogGrows(log: seq<Event>, e: Event, id: nat)
    ensures LatestToken(log + [e], id) == if e.Granted? && e.id == id then Some(e.token) else LatestToken(log, id)
    ensures Claims(log + [e], id) == Claims(log, id) + if e.Granted? && e.id == id then 1 else 0
  {
    assert (log + [e])[..|log|] == log;
  }

  lemma {:induction false} DisjointGrows(log: seq<Event>, e: Event)
    requires LeasesDisjoint(log)
    requires e.Granted? ==> forall i :: 0 <= i < |log| && log[i].Granted? && log[i].id == e.id ==>
      WasReleased(log, log[i].id, log[i].token) || log[i].expiresAt < e.at
    ensures LeasesDisjoint(log + [e])
  {
    var grown := log + [e];
    forall i, j | 0 <= i < j < |grown| && grown[i].Granted? && grown[j].Granted? && grown[i].id == grown[j].id
      ensures WasReleased(grown[..j], grown[i].id, grown[i].token) || grown[i].expiresAt < grown[j].at
    {
      assert grown[i] == log[i] && grown[..j] == log[..j] && log[..|log|] == log;
    }
  }

  /** Tokens are never shared, so a claimable row's earlier claims are all over. */
  lemma {:induction false} EarlierLeasesOver(table: Table, s: State, id: nat, i: nat)
    requires Inv(table, s) && id in s.rows && Claimable(table, s.rows[id], s.now)
    requires i < |s.log| && s.log[i].Granted? && s.log[i].id == id
    ensures WasReleased(s.log, id, s.log[i].token) || s.log[i].expiresAt < s.now
  {
    if Matches(s, id, s.log[i].token) {
      assert s.log[i].Granted?;
    }
  }

  lemma {:induction false} ClaimKeepsInv(table: Table, s: State, id: nat, ttl: int)
    requires Inv(table, s)
    ensures Inv(table, OnClaim(table, s, id, ttl))
  {
    var t := OnClaim(table, s, id, ttl);
    if t != s {
      var e := Granted(id, s.nextToken, s.now, s.now + ttl);
      assert t.log == s.log + [e];
      forall i | 0 <= i < |s.log| && s.log[i].Granted? && s.log[i].id == id
        ensures WasReleased(s.log, id, s.log[i].token) || s.log[i].expiresAt < s.now
      {
        EarlierLeasesOver(table, s, id, i);
      }
      DisjointGrows(s.log, e);
      ClaimKeepsRows(table, s, id, ttl);
      ClaimKeepsLeases(table, s, t, e);
      ClaimKeepsCleared(table, s, id, ttl);
    }
  }

  lemma {:induction false} ClaimKeepsCleared(table: Table, s: State, id: nat, ttl: int)
    requires ClearedRows(s)
    ensures ClearedRows(OnClaim(table, s, id, ttl))
  {}

  lemma {:induction false} ClaimKeepsRows(table: Table, s: State, id: nat, ttl: int)
    requires FreshTokens(s) && RowsMatchLog(s)
    ensures FreshTokens(OnClaim(table, s, id, ttl)) && RowsMatchLog(OnClaim(table, s, id, ttl))
  {
    var t := OnClaim(table, s, id, ttl);
    if t != s {
      forall x: nat
        ensures LatestToken(t.log, x) == if x == id then Some(s.nextToken) else LatestToken(s.log, x)
        ensures Claims(t.log, x) == Claims(s.log, x) + if x == id then 1 else 0
      {
        LogGrows(s.log, Granted(id, s.nextToken, s.now, s.now + ttl), x);
      }
    }
  }

  lemma {:induction false} ClaimKeepsLeases(table: Table, s: State, t: State, e: Event)
    requires FreshTokens(s) && ExpiryStands(table, s) && OldLeasesEnded(s)
    requires e.Granted? && e.token == s.nextToken && t.log == s.log + [e] && t.now == s.now
    requires e.id in s.rows && e.id in t.rows && t.rows == s.rows[e.id := t.rows[e.id]]
    requires t.rows[e.id].token == Some(e.token) && t.rows[e.id].expiresAt == Some(e.expiresAt)
    requires forall i :: 0 <= i < |s.log| && s.log[i].Granted? && s.log[i].id == e.id ==>
      WasReleased(s.log, e.id, s.log[i].token) || s.log[i].expiresAt < s.now
    ensures ExpiryStands(table, t) && OldLeasesEnded(t)
  {
    forall i | 0 <= i < |t.log| && t.log[i].Granted?
      ensures i < |s.log| ==> t.log[i] == s.log[i] && (t.log[i].id == e.id ==> !Matches(t, t.log[i].id, t.log[i].token))
      ensures i < |s.log| && t.log[i].id != e.id ==>
        (Matches(t, t.log[i].id, t.log[i].token) <==> Matches(s, t.log[i].id, t.log[i].token))
    {}
    forall id: nat, token: nat | WasReleased(s.log, id, token)
      ensures WasReleased(t.log, id, token)
    {}
  }

  // ---------- the other steps ----------

  /** What a row may become in a step that is not a claim: token and count stay, and the
      expiry stays or is cleared. */
  ghost predicate RowKept(table: Table, before: Row, after: Row, released: bool) {
    && after.token == before.token && after.attempts == before.attempts
    && (after.expiresAt == before.expiresAt || after.expiresAt.None?)
    && (|| released
        || (after.expiresAt == before.expiresAt && (after.status == before.status || table == Products))
        || (table == Candidates && !ClaimableStatus(table, after.status)))
  }

  ghost predicate GivenBack(s: State, t: State, id: nat) {
    id in s.rows && s.rows[id].token.Some? && WasReleased(t.log, id, s.rows[id].token.value)
  }

  ghost predicate Quiet(table: Table, s: State, t: State) {
    && t.nextToken == s.nextToken && s.now <= t.now
    && (t.log == s.log || exists id, token :: Matches(s, id, token) && t.log == s.log + [Released(id, token)])
    && s.rows.Keys <= t.rows.Keys
    && (forall id :: id in s.rows ==> RowKept(table, s.rows[id], t.rows[id], GivenBack(s, t, id)))
    && (forall id :: id in t.rows && id !in s.rows ==>
          t.rows[id].token == None && t.rows[id].attempts == 0 && t.rows[id].expiresAt == None)
    && (forall id :: GivenBack(s, t, id) && !GivenBack(s, s, id) ==> t.rows[id].expiresAt.None?)
  }

  lemma {:induction false} FinishIsQuiet(table: Table, s: State, id: nat, token: nat, status: Status)
    ensures Quiet(table, s, OnFinish(s, id, token, status))
  {
    var t := OnFinish(s, id, token, status);
    if Matches(s, id, token) {
      assert t.log[|s.log|] == Released(id, token);
    }
  }

  lemma {:induction false} UnfencedIsQuiet(s: State, id: nat, status: Status)
    requires status in {NoMatch, Matched, Queued}
    ensures Quiet(Candidates, s, OnUnfenced(s, id, status))
  {}

  lemma {:induction false} StepIsQuiet(table: Table, s: State, step: Step)
    requires !step.Claim?
    ensures Quiet(table, s, Next(table, s, step))
  {
    hide Quiet;
    QuietStutter(table, s);
    match step
    case Tick(to) => TickIsQuiet(table, s, to);
    case Put(id) => PutIsQuiet(table, s, id);
    case Accept(id, token, family) => AcceptIsQuiet(table, s, id, token, family);
    case Reject(id, token) => FinishIsQuiet(table, s, id, token, Rejected);
    case MarkNoMatch(id, token) => FinishIsQuiet(table, s, id, token, NoMatch);
    case MarkRetryNeeded(id, token) => FinishIsQuiet(table, s, id, token, RetryNeeded);
    case SaveBestMatch(id, status) => UnfencedIsQuiet(s, id, StatusOf(status));
    case QueueOpportunity(id) => UnfencedIsQuiet(s, id, Queued);
    case Decide(id, final) => DecideIsQuiet(s, id, final);
  }

  lemma {:induction false} TickIsQuiet(table: Table, s: State, to: int)
    ensures Quiet(table, s, Next(table, s, Tick(to)))
  {}

  lemma {:induction false} PutIsQuiet(table: Table, s: State, id: nat)
    ensures Quiet(table, s, OnPut(table, s, id))
  {}

  lemma {:induction false} DecideIsQuiet(s: State, id: nat, final: bool)
    ensures Quiet(Candidates, s, OnDecide(s, id, final))
  {}

  lemma {:induction false} AcceptIsQuiet(table: Table, s: State, id: nat, token: nat, family: string)
    ensures Quiet(table, s, OnAccept(s, id, token, family))
  {
    FinishIsQuiet(table, s, id, token, Accepted);
  }

  lemma {:induction false} QuietStutter(table: Table, s: State)
    ensures Quiet(table, s, s)
  {}

  lemma {:induction false} QuietKeepsLog(table: Table, s: State, t: State)
    requires Quiet(table, s, t)
    ensures s.log <= t.log
    ensures forall i :: |s.log| <= i < |t.log| ==> t.log[i].Released?
    ensures forall id :: LatestToken(t.log, id) == LatestToken(s.log, id) && Claims(t.log, id) == Claims(s.log, id)
    ensures LeasesDisjoint(s.log) ==> LeasesDisjoint(t.log)
  {
    if t.log != s.log {
      var id, token :| Matches(s, id, token) && t.log == s.log + [Released(id, token)];
      forall x: nat
        ensures LatestToken(t.log, x) == LatestToken(s.log, x) && Claims(t.log, x) == Claims(s.log, x)
      {
        LogGrows(s.log, Released(id, token), x);
      }
      if LeasesDisjoint(s.log) {
        DisjointGrows(s.log, Released(id, token));
      }
    }
  }

  lemma {:induction false} QuietKeepsRows(table: Table, s: State, t: State)
    requires Quiet(table, s, t) && FreshTokens(s) && RowsMatchLog(s)
    ensures FreshTokens(t) && RowsMatchLog(t)
  {
    hide LatestToken, Claims;
    QuietKeepsLog(table, s, t);
  }

  lemma {:induction false} QuietKeepsCleared(table: Table, s: State, t: State)
    requires Quiet(table, s, t) && ClearedRows(s)
    ensures ClearedRows(t)
  {
    forall id: nat, token: nat | Released(id, token) in t.log
      ensures token < t.nextToken
    {
      if Released(id, token) !in s.log {
        assert Matches(s, id, token);
      }
    }
    forall id | GivenBack(t, t, id)
      ensures t.rows[id].expiresAt.None?
    {
      if id in s.rows {
        assert RowKept(table, s.rows[id], t.rows[id], GivenBack(s, t, id));
        assert GivenBack(s, t, id);
      }
    }
  }

  lemma {:induction false} QuietKeepsLeases(table: Table, s: State, t: State)
    requires Quiet(table, s, t) && RowsMatchLog(s) && ExpiryStands(table, s) && OldLeasesEnded(s)
    ensures ExpiryStands(table, t) && OldLeasesEnded(t)
  {
    hide LatestToken, Claims;
    QuietKeepsLog(table, s, t);
    forall i | 0 <= i < |t.log| && t.log[i].Granted?
      ensures i < |s.log| && t.log[i] == s.log[i]
      ensures Matches(t, t.log[i].id, t.log[i].token) <==> Matches(s, t.log[i].id, t.log[i].token)
    {}
    forall id: nat, token: nat | WasReleased(s.log, id, token)
      ensures WasReleased(t.log, id, token)
    {}
  }

  lemma {:induction false} StepKeepsInv(table: Table, s: State, step: Step)
    requires Inv(table, s)
    ensures Inv(table, Next(table, s, step))
  {
    if step.Claim? {
      ClaimKeepsInv(table, s, step.id, step.ttl);
    } else {
      var t := Next(table, s, step);
      StepIsQuiet(table, s, step);
      hide *;
      QuietKeepsLog(table, s, t);
      QuietKeepsRows(table, s, t);
      QuietKeepsLeases(table, s, t);
      QuietKeepsCleared(table, s, t);
    }
  }

  lemma {:induction false} RunKeepsInv(table: Table, s: State, steps: seq<Step>)
    requires Inv(table, s)
    ensures Inv(table, Exec(table, s, steps))
    decreases |steps|
  {
    if steps != [] {
      StepKeepsInv(table, s, steps[0]);
      RunKeepsInv(table, Next(table, s, steps[0]), steps[1..]);
    }
  }

  lemma {:induction false} Reachable(table: Table, now: int, steps: seq<Step>)
    ensures Inv(table, Exec(table, Init(now), steps))
  {
    RunKeepsInv(table, Init(now), steps);
  }

  // ---------- fencing ----------

  predicate Fenced(table: Table, step: Step) {
    if table == Products then step.Accept? || step.Reject? else step.MarkNoMatch? || step.MarkRetryNeeded?
  }

  function WrittenStatus(step: Step): Status {
    match step
    case Accept(_, _, _) => Accepted
    case Reject(_, _) => Rejected
    case MarkNoMatch(_, _) => NoMatch
    case _ => RetryNeeded
  }

  /** In every run a token-checked write lands exactly when its token is that of the row's
      most recent claim. Landing changes that row's status, clears its expiry and, for an
      accept, stores the watchlist entry; otherwise nothing changes, the watchlist included. */
  lemma {:induction false} WriteLandsIffLatestToken(table: Table, now: int, steps: seq<Step>, write: Step)
    requires Fenced(table, write)
    ensures
      var s := Exec(table, Init(now), steps);
      var t := Next(table, s, write);
      if LatestToken(s.log, write.id) == Some(write.token) then
        && write.id in s.rows
        && t.rows == s.rows[write.id := s.rows[write.id].(status := WrittenStatus(write), expiresAt := None)]
        && t.watchlist == (if write.Accept? then s.watchlist[write.family := write.id] else s.watchlist)
        && t.log == s.log + [Released(write.id, write.token)]
      else t == s
  {
    Reachable(table, now, steps);
    assert RowsMatchLog(Exec(table, Init(now), steps));
  }

  lemma {:induction false} LatestIsLast(log: seq<Event>, id: nat, i: nat, j: nat)
    requires i < j < |log| && log[i].Granted? && log[j].Granted? && log[j].id == id
    requires forall a, b :: 0 <= a < b < |log| && log[a].Granted? && log[b].Granted? ==> log[a].token < log[b].token
    ensures LatestToken(log, id) != Some(log[i].token)
  {
    var front, e := log[..|log| - 1], log[|log| - 1];
    if !(e.Granted? && e.id == id) {
      LatestIsLast(front, id, i, j);
    } else if j < |log| - 1 {
      assert log[i].token < log[j].token < log[|log| - 1].token;
    }
  }

  /** Once a row has been claimed again, every write with an earlier claim's token changes
      nothing, whatever has happened in between. */
  lemma {:induction false} SupersededWriteChangesNothing(table: Table, now: int, steps: seq<Step>, write: Step,
                                                         i: nat, j: nat)
    requires Fenced(table, write)
    requires var log := Exec(table, Init(now), steps).log;
      i < j < |log| && log[i].Granted? && log[j].Granted? &&
      log[i].id == log[j].id == write.id && write.token == log[i].token
    ensures var s := Exec(table, Init(now), steps);
      Next(table, s, write) == s
  {
    var s := Exec(table, Init(now), steps);
    Reachable(table, now, steps);
    LatestIsLast(s.log, write.id, i, j);
    WriteLandsIffLatestToken(table, now, steps, write);
  }

  /** Over every run a row has at most one live lease: whenever it was claimed, each earlier
      claim had been given back with its own token or had expired. */
  lemma {:induction false} OneLiveLease(table: Table, now: int, steps: seq<Step>, i: nat, j: nat)
    requires var log := Exec(table, Init(now), steps).log;
      i < j < |log| && log[i].Granted? && log[j].Granted? && log[i].id == log[j].id
    ensures var log := Exec(table, Init(now), steps).log;
      Released(log[i].id, log[i].token) in log[..j] || log[i].expiresAt < log[j].at
  {
    Reachable(table, now, steps);
  }

  /** The attempt count of a row is the number of its claims. */
  lemma {:induction false} AttemptsCountClaims(table: Table, now: int, steps: seq<Step>, id: nat)
    ensures var s := Exec(table, Init(now), steps);
      Claims(s.log, id) == if id in s.rows then s.rows[id].attempts else 0
  {
    Reachable(table, now, steps);
  }

  // ---------- what each step does, in every run ----------

  /** When the row's most recent claim was to end. */
  ghost function LatestExpiry(log: seq<Event>, id: nat): Option<int> {
    if log == [] then None
    else
      var e := log[|log| - 1];
      if e.Granted? && e.id == id then Some(e.expiresAt) else LatestExpiry(log[..|log| - 1], id)
  }

  ghost predicate IsLatestGrant(log: seq<Event>, id: nat, i: nat) {
    && i < |log| && log[i].Granted? && log[i].id == id
    && LatestToken(log, id) == Some(log[i].token) && LatestExpiry(log, id) == Some(log[i].expiresAt)
  }

  lemma {:induction false} LatestGrantIs(log: seq<Event>, id: nat)
    ensures LatestToken(log, id).Some? <==> LatestExpiry(log, id).Some?
    ensures LatestToken(log, id).Some? ==> exists i: nat :: IsLatestGrant(log, id, i)
  {
    if log != [] {
      var e := log[|log| - 1];
      if !(e.Granted? && e.id == id) {
        LatestGrantIs(log[..|log| - 1], id);
        if LatestToken(log, id).Some? {
          var i: nat :| IsLatestGrant(log[..|log| - 1], id, i);
          assert IsLatestGrant(log, id, i);
        }
      } else {
        assert IsLatestGrant(log, id, |log| - 1);
      }
    }
  }

  /** The row waits for a worker: a scored product, or a candidate that is pending or to be
      retried. */
  predicate Waiting(table: Table, row: Row) {
    match table
    case Products => row.status == Scored
    case Candidates => row.status == Pending || row.status == RetryNeeded
  }

  /** No claim of the row stands: it was never claimed, its latest claim was given back, or that
      claim has run out. */
  ghost predicate NoStandingLease(s: State, id: nat) {
    || LatestToken(s.log, id).None?
    || Released(id, LatestToken(s.log, id).value) in s.log
    || (LatestExpiry(s.log, id).Some? && LatestExpiry(s.log, id).value < s.now)
  }

  lemma {:induction false} LeaseIs(table: Table, now: int, steps: seq<Step>, s: State, id: nat)
    requires s == Exec(table, Init(now), steps) && id in s.rows && Waiting(table, s.rows[id])
    ensures NoStandingLease(s, id) <==> s.rows[id].expiresAt.None? || s.rows[id].expiresAt.value < s.now
  {
    Reachable(table, now, steps);
    hide Exec, LeasesDisjoint, OldLeasesEnded, FreshTokens;
    LatestGrantIs(s.log, id);
    assert s.rows[id].token == LatestToken(s.log, id);
    hide LatestToken, LatestExpiry;
    if LatestToken(s.log, id).Some? {
      var i: nat :| IsLatestGrant(s.log, id, i);
      assert Matches(s, s.log[i].id, s.log[i].token);
      assert GivenBack(s, s, id) <==> WasReleased(s.log, id, s.log[i].token);
    }
  }

  /** In every run a claim with a positive time to live is granted exactly when the row waits and
      no lease of it stands. The claim then gets a token never used before, holds until its time
      to live is past, and counts as one attempt; a claim that is not granted changes nothing. */
  lemma {:induction false} ClaimLaw(table: Table, now: int, steps: seq<Step>, s: State, id: nat, ttl: int)
    requires s == Exec(table, Init(now), steps)
    ensures var t := Next(table, s, Claim(id, ttl));
      if id in s.rows && ttl > 0 && Waiting(table, s.rows[id]) && NoStandingLease(s, id) then
        && t.log == s.log + [Granted(id, s.nextToken, s.now, s.now + ttl)]
        && (forall i :: 0 <= i < |s.log| && s.log[i].Granted? ==> s.log[i].token != s.nextToken)
        && t.rows == s.rows[id := s.rows[id].(token := Some(s.nextToken), expiresAt := Some(s.now + ttl),
                                              attempts := s.rows[id].attempts + 1)]
        && t.nextToken > s.nextToken && t.watchlist == s.watchlist && t.now == s.now
      else t == s
  {
    if id in s.rows && Waiting(table, s.rows[id]) {
      LeaseIs(table, now, steps, s, id);
    }
    Reachable(table, now, steps);
    hide Exec, LeasesDisjoint, OldLeasesEnded, ExpiryStands, RowsMatchLog, ClearedRows, NoStandingLease;
  }

  /** So a worker that crashes does not keep its row: once its lease has run out, the next claim
      is granted. */
  lemma {:induction false} ExpiredLeaseIsGranted(id: nat, ttl: int, later: int)
    requires 0 < ttl < later
    ensures var s := Exec(Products, Init(0), [Put(id), Claim(id, ttl), Tick(later)]);
      var t := Next(Products, s, Claim(id, ttl));
      id in t.rows && t.rows[id] == Row(Scored, Some(1), Some(later + ttl), 2)
  {
    var s1 := Next(Products, Init(0), Put(id));
    var s2 := Next(Products, s1, Claim(id, ttl));
    var steps := [Put(id), Claim(id, ttl), Tick(later)];
    assert steps[1..] == [Claim(id, ttl), Tick(later)] && steps[1..][1..] == [Tick(later)] && [Tick(later)][1..] == [];
    assert Exec(Products, s2, [Tick(later)]) == Next(Products, s2, Tick(later));
    assert Exec(Products, s1, [Claim(id, ttl), Tick(later)]) == Exec(Products, s2, [Tick(later)]);
  }

  /** A new product is scored, a new candidate pending, neither ever claimed. Saving a product
      again scores it and leaves its claim alone; an existing candidate is left as it is. */
  lemma {:induction false} PutLaw(table: Table, s: State, id: nat)
    ensures var t := Next(table, s, Put(id));
      && t == s.(rows := t.rows) && t.rows.Keys == s.rows.Keys + {id}
      && (forall x :: x in s.rows && x != id ==> t.rows[x] == s.rows[x])
      && (id !in s.rows && table == Products ==> t.rows[id] == Row(Scored, None, None, 0))
      && (id !in s.rows && table == Candidates ==> t.rows[id] == Row(Pending, None, None, 0))
      && (id in s.rows && table == Products ==> t.rows[id] == s.rows[id].(status := Scored))
      && (id in s.rows && table == Candidates ==> t == s)
  {}

  /** Writers that check no token: the best match clears the expiry and sets its own status, the
      queue does so unless the candidate is finally decided, a decision leaves the expiry. Token
      and count stay, so does the history. */
  lemma {:induction false} UnfencedLaw(s: State, id: nat)
    requires id in s.rows
    ensures var row := s.rows[id];
      && Next(Candidates, s, SaveBestMatch(id, FinalNoMatch)) ==
           s.(rows := s.rows[id := row.(status := NoMatch, expiresAt := None)])
      && Next(Candidates, s, SaveBestMatch(id, FinalMatched)) ==
           s.(rows := s.rows[id := row.(status := Matched, expiresAt := None)])
      && Next(Candidates, s, SaveBestMatch(id, FinalQueued)) ==
           s.(rows := s.rows[id := row.(status := Queued, expiresAt := None)])
      && Next(Candidates, s, QueueOpportunity(id)) ==
           (if row.status == Decided then s else s.(rows := s.rows[id := row.(status := Queued, expiresAt := None)]))
      && Next(Candidates, s, Decide(id, true)) == s.(rows := s.rows[id := row.(status := Decided)])
      && Next(Candidates, s, Decide(id, false)) == s.(rows := s.rows[id := row.(status := Reviewed)])
  {}

  /** Such writers do nothing to products or to rows that are not there. */
  lemma {:induction false} UnfencedElsewhere(table: Table, s: State, step: Step)
    requires step.SaveBestMatch? || step.QueueOpportunity? || step.Decide?
    requires table == Products || step.id !in s.rows
    ensures Next(table, s, step) == s
  {}

  // ---------- the repository ----------

  /** The claims of one batch, as steps. */
  ghost function ClaimSteps(picked: seq<(nat, nat)>, ttl: int): seq<Step> {
    if picked == [] then [] else ClaimSteps(picked[..|picked| - 1], ttl) + [Claim(picked[|picked| - 1].0, ttl)]
  }

  lemma {:induction false} ExecAppend(table: Table, s: State, steps: seq<Step>, last: Step)
    ensures Exec(table, s, steps + [last]) == Next(table, Exec(table, s, steps), last)
    decreases |steps|
  {
    if steps == [] {
      assert [last][1..] == [];
      assert [] + [last] == [last];
    } else {
      assert (steps + [last])[1..] == steps[1..] + [last];
      ExecAppend(table, Next(table, s, steps[0]), steps[1..], last);
    }
  }

  lemma {:induction false} NoClaims(table: Table, s: State, ttl: int)
    ensures Exec(table, s, ClaimSteps([], ttl)) == s
  {}

  lemma {:induction false} ClaimOneMore(table: Table, s: State, picked: seq<(nat, nat)>, id: nat, token: nat, ttl: int)
    ensures Exec(table, s, ClaimSteps(picked + [(id, token)], ttl))
         == OnClaim(table, Exec(table, s, ClaimSteps(picked, ttl)), id, ttl)
  {
    assert (picked + [(id, token)])[..|picked|] == picked;
    ExecAppend(table, s, ClaimSteps(picked, ttl), Claim(id, ttl));
  }

  /** The row waits and carries no expiry that is still to come. */
  predicate OpenForClaim(table: Table, row: Row, now: int) {
    Waiting(table, row) && (row.expiresAt.Some? ==> row.expiresAt.value < now)
  }

  /** Nothing in `ids` that was open and not locked elsewhere was passed over. */
  ghost predicate NoneMissed(table: Table, ids: seq<nat>, rows: map<nat, Row>, locked: set<nat>, now: int) {
    forall id <- ids | id in rows && id !in locked :: !OpenForClaim(table, rows[id], now)
  }

  /** The batch is what the query finds first: it was taken from a front part of the order, in
      which nothing open is left, and which is all of it unless the limit was reached. */
  ghost predicate FirstOnes(table: Table, order: seq<nat>, rows: map<nat, Row>, locked: set<nat>, now: int, limit: int,
                            picked: seq<(nat, nat)>) {
    exists n: nat :: n <= |order| && (n == |order| || |picked| == limit)
      && (forall p <- picked :: p.0 in order[..n] && p.0 !in locked) && NoneMissed(table, order[..n], rows, locked, now)
  }

  /** A row of the batch: claimable before, and now held under the returned token. */
  ghost predicate FreshlyClaimed(table: Table, before: map<nat, Row>, after: map<nat, Row>, now: int, ttl: int,
                                 p: (nat, nat)) {
    && p.0 in before && p.0 in after
    && OpenForClaim(table, before[p.0], now)
    && after[p.0] == Row(before[p.0].status, Some(p.1), Some(now + ttl), before[p.0].attempts + 1)
  }

  ghost predicate Batch(table: Table, before: map<nat, Row>, after: map<nat, Row>, now: int, ttl: int,
                        picked: seq<(nat, nat)>) {
    && after.Keys == before.Keys
    && (forall p <- picked :: FreshlyClaimed(table, before, after, now, ttl, p))
    && (forall id <- after :: after[id] == before[id] || exists p <- picked :: p.0 == id)
  }

  lemma {:induction false} BatchGrows(table: Table, before: map<nat, Row>, after: map<nat, Row>, now: int, ttl: int,
                                      picked: seq<(nat, nat)>, p: (nat, nat), later: map<nat, Row>)
    requires Batch(table, before, after, now, ttl, picked) && ttl > 0
    requires p.0 in after && Claimable(table, after[p.0], now)
    requires later == after[p.0 := Row(after[p.0].status, Some(p.1), Some(now + ttl), after[p.0].attempts + 1)]
    ensures Batch(table, before, later, now, ttl, picked + [p])
  {
    forall q <- picked
      ensures q.0 != p.0 && FreshlyClaimed(table, before, later, now, ttl, q)
    {
      assert FreshlyClaimed(table, before, after, now, ttl, q);
    }
    assert p in picked + [p];
    forall id <- later
      ensures later[id] == before[id] || exists q <- picked + [p] :: q.0 == id
    {
      if id != p.0 && after[id] != before[id] {
        var q :| q in picked && q.0 == id;
        assert q in picked + [p];
      }
    }
  }

  /** The walk has come to `n` of the order. */
  ghost predicate BatchUpTo(table: Table, before: map<nat, Row>, rows: map<nat, Row>, now: int, ttl: int,
                            order: seq<nat>, locked: set<nat>, n: nat, picked: seq<(nat, nat)>) {
    && n <= |order| && Batch(table, before, rows, now, ttl, picked)
    && (forall p <- picked :: p.0 in order[..n] && p.0 !in locked)
    && NoneMissed(table, order[..n], rows, locked, now)
  }

  lemma {:induction false} BatchStarts(table: Table, rows: map<nat, Row>, now: int, ttl: int,
                                       order: seq<nat>, locked: set<nat>)
    ensures BatchUpTo(table, rows, rows, now, ttl, order, locked, 0, [])
  {}

  lemma {:induction false} BatchPasses(table: Table, before: map<nat, Row>, rows: map<nat, Row>, now: int, ttl: int,
                                       order: seq<nat>, locked: set<nat>, n: nat, picked: seq<(nat, nat)>)
    requires BatchUpTo(table, before, rows, now, ttl, order, locked, n, picked) && n < |order|
    requires order[n] in rows && order[n] !in locked ==> !Claimable(table, rows[order[n]], now)
    ensures BatchUpTo(table, before, rows, now, ttl, order, locked, n + 1, picked)
  {
    hide Batch;
    assert order[..n + 1] == order[..n] + [order[n]];
  }

  lemma {:induction false} BatchTakes(table: Table, before: map<nat, Row>, rows: map<nat, Row>, now: int, ttl: int,
                                      order: seq<nat>, locked: set<nat>, n: nat, picked: seq<(nat, nat)>, token: nat,
                                      later: map<nat, Row>)
    requires BatchUpTo(table, before, rows, now, ttl, order, locked, n, picked) && n < |order| && ttl > 0
    requires order[n] in rows && order[n] !in locked && Claimable(table, rows[order[n]], now)
    requires var row := rows[order[n]];
      later == rows[order[n] := Row(row.status, Some(token), Some(now + ttl), row.attempts + 1)]
    ensures BatchUpTo(table, before, later, now, ttl, order, locked, n + 1, picked + [(order[n], token)])
  {
    BatchGrows(table, before, rows, now, ttl, picked, (order[n], token), later);
    hide Batch;
    assert order[..n + 1] == order[..n] + [order[n]];
    assert order[n] in order[..n + 1];
  }

  lemma {:induction false} BatchEnds(table: Table, before: map<nat, Row>, rows: map<nat, Row>, now: int, ttl: int,
                                     order: seq<nat>, locked: set<nat>, n: nat, picked: seq<(nat, nat)>, limit: int)
    requires BatchUpTo(table, before, rows, now, ttl, order, locked, n, picked) && (n == |order| || |picked| == limit)
    ensures Batch(table, before, rows, now, ttl, picked) && FirstOnes(table, order, rows, locked, now, limit, picked)
  {
    hide Batch;
  }

  datatype Failure = NotPositive | TokenMismatch

  class Prong2Repository {
    const table: Table
    var now: int
    var nextToken: nat
    var rows: map<nat, Row>
    var watchlist: map<string, nat>
    ghost var log: seq<Event>

    constructor (table: Table, now: int)
      ensures this.table == table && Value() == Init(now)
    {
      this.table := table;
      this.now := now;
      nextToken := 0;
      rows := map[];
      watchlist := map[];
      log := [];
    }

    ghost function Value(): State
      reads this
    {
      State(now, nextToken, rows, watchlist, log)
    }

    method ClaimRow(id: nat, ttl: int) returns (token: nat)
      requires id in rows && Claimable(table, rows[id], now) && ttl > 0
      modifies this`rows, this`log, this`nextToken
      ensures token == old(nextToken) && Value() == OnClaim(table, old(Value()), id, ttl)
    {
      token := nextToken;
      var row := rows[id];
      nextToken := nextToken + 1;
      rows := rows[id := Row(row.status, Some(token), Some(now + ttl), row.attempts + 1)];
      log := log + [Granted(id, token, now, now + ttl)];
    }

    /** A claim query: it walks `order`, skips what another transaction has locked, and
        stops at the limit. A short batch means nothing claimable was passed over. */
    method ClaimBatch(order: seq<nat>, locked: set<nat>, limit: int, ttl: int)
      returns (r: Result<seq<(nat, nat)>, Failure>)
      modifies this`rows, this`log, this`nextToken
      ensures r.Err? <==> limit <= 0 || ttl <= 0
      ensures r.Err? ==> Value() == old(Value())
      ensures r.Ok? ==>
        && Value() == Exec(table, old(Value()), ClaimSteps(r.value, ttl))
        && Batch(table, old(rows), rows, now, ttl, r.value)
        && |r.value| <= limit && nextToken == old(nextToken) + |r.value|
        && FirstOnes(table, order, rows, locked, now, limit, r.value)
    {
      if limit <= 0 || ttl <= 0 {
        return Err(NotPositive);
      }
      hide Exec, ClaimSteps, Batch, BatchUpTo, FirstOnes;
      var picked: seq<(nat, nat)> := [];
      var i := 0;
      BatchStarts(table, rows, now, ttl, order, locked);
      NoClaims(table, Value(), ttl);
      while i < |order| && |picked| < limit
        invariant i <= |order| && |picked| <= limit && nextToken == old(nextToken) + |picked|
        invariant Value() == Exec(table, old(Value()), ClaimSteps(picked, ttl))
        invariant BatchUpTo(table, old(rows), rows, now, ttl, order, locked, i, picked)
      {
        var id := order[i];
        ghost var found := rows;
        if id in rows && id !in locked && Claimable(table, rows[id], now) {
          var token := ClaimRow(id, ttl);
          ClaimOneMore(table, old(Value()), picked, id, token, ttl);
          BatchTakes(table, old(rows), found, now, ttl, order, locked, i, picked, token, rows);
          picked := picked + [(id, token)];
        } else {
          BatchPasses(table, old(rows), rows, now, ttl, order, locked, i, picked);
        }
        i := i + 1;
      }
      BatchEnds(table, old(rows), rows, now, ttl, order, locked, i, picked, limit);
      return Ok(picked);
    }

    /** `update ... where id = $1 and claim_token = $2`, and the number of rows it hit. */
    method UpdateWhereToken(id: nat, token: nat, status: Status) returns (count: nat)
      modifies this`rows, this`log
      ensures Value() == OnFinish(old(Value()), id, token, status)
      ensures count == if Matches(old(Value()), id, token) then 1 else 0
    {
      if id in rows && rows[id].token == Some(token) {
        rows := rows[id := rows[id].(status := status, expiresAt := None)];
        log := log + [Released(id, token)];
        return 1;
      }
      return 0;
    }

    /** A transaction: the watchlist entry is written first and taken back on a mismatch. */
    method UpsertWatchlistFromClaimedProduct(id: nat, token: nat, family: string) returns (r: Result<(), Failure>)
      requires table == Products
      modifies this`rows, this`log, this`watchlist
      ensures Value() == Next(table, old(Value()), Accept(id, token, family))
      ensures r == if Matches(old(Value()), id, token) then Ok(()) else Err(TokenMismatch)
    {
      var begun := (rows, watchlist);
      watchlist := watchlist[family := id];
      var count := UpdateWhereToken(id, token, Accepted);
      if count != 1 {
        rows, watchlist := begun.0, begun.1;
        return Err(TokenMismatch);
      }
      return Ok(());
    }

    method RejectClaimedSnapshotProduct(id: nat, token: nat) returns (r: Result<(), Failure>)
      requires table == Products
      modifies this`rows, this`log
      ensures Value() == Next(table, old(Value()), Reject(id, token))
      ensures r == if Matches(old(Value()), id, token) then Ok(()) else Err(TokenMismatch)
    {
      var count := UpdateWhereToken(id, token, Rejected);
      return if count == 1 then Ok(()) else Err(TokenMismatch);
    }

    method MarkCandidateNoMatch(id: nat, token: nat) returns (r: Result<(), Failure>)
      requires table == Candidates
      modifies this`rows, this`log
      ensures Value() == Next(table, old(Value()), Step.MarkNoMatch(id, token))
      ensures r == if Matches(old(Value()), id, token) then Ok(()) else Err(TokenMismatch)
    {
      var count := UpdateWhereToken(id, token, NoMatch);
      return if count == 1 then Ok(()) else Err(TokenMismatch);
    }

    method MarkCandidateRetryNeeded(id: nat, token: nat) returns (r: Result<(), Failure>)
      requires table == Candidates
      modifies this`rows, this`log
      ensures Value() == Next(table, old(Value()), Step.MarkRetryNeeded(id, token))
      ensures r == if Matches(old(Value()), id, token) then Ok(()) else Err(TokenMismatch)
    {
      var count := UpdateWhereToken(id, token, RetryNeeded);
      return if count == 1 then Ok(()) else Err(TokenMismatch);
    }
  }
}
