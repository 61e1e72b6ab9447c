/**
 The hash-chained mutation ledger (src/services/forensicLedger.service.ts). An append
 is two statements, a read of the entity's head and an insert, so appends interleave.

 Rows are kept in id order. The ledger hash is a free constructor over what is hashed,
 which makes it injective and acyclic.
 */
module Ledger {
  import opened Common
  import Canonical

  type Json = Canonical.Json
  type Digest = Canonical.Digest

  datatype Entity = Entity(entityType: string, entityId: string)

  datatype Input = Input(
    correlationId: string,
    entity: Entity,
    mutationType: string,
    actor: string,
    before: Option<Json>,
    after: Json,
    payload: Option<Json>)

  datatype Content = Content(
    correlationId: string,
    entity: Entity,
    mutationType: string,
    actor: string,
    beforeHash: Option<Digest>,
    afterHash: Digest,
    payloadHash: Digest)

  datatype LedgerHash = LedgerHash(content: Content, previous: Option<LedgerHash>)

  datatype Row = Row(content: Content, previous: Option<LedgerHash>, hash: LedgerHash)

  /** An append between its two statements. */
  datatype Pending = Pending(content: Content, head: Option<LedgerHash>)

  datatype State = State(rows: seq<Row>, pending: map<nat, Pending>)

  datatype Step = ReadHead(caller: nat, input: Input) | Insert(caller: nat)

  /** A payload left out or `null` counts as an empty object. */
  function PayloadOf(input: Input): Json {
    if input.payload.None? || input.payload.value.Null? then Canonical.Object([]) else input.payload.value
  }

  function ContentOf(input: Input): Content {
    Content(input.correlationId, input.entity, input.mutationType, input.actor,
            if input.before.None? then None else Some(Canonical.Sha256(input.before.value)),
            Canonical.Sha256(input.after),
            Canonical.Sha256(PayloadOf(input)))
  }

  function RowsOf(rows: seq<Row>, e: Entity): seq<Row> {
    if rows == [] then []
    else
      var last := rows[|rows| - 1];
      RowsOf(rows[..|rows| - 1], e) + if last.content.entity == e then [last] else []
  }

  function HeadOf(es: seq<Row>): Option<LedgerHash> {
    if es == [] then None else Some(es[|es| - 1].hash)
  }

  function RowFor(p: Pending): Row {
    Row(p.content, p.head, LedgerHash(p.content, p.head))
  }

  predicate HashStored(rows: seq<Row>, hash: LedgerHash) {
    exists i :: 0 <= i < |rows| && rows[i].hash == hash
  }

  /** `on conflict (ledger_hash) do nothing`. */
  function InsertRow(rows: seq<Row>, row: Row): seq<Row> {
    if HashStored(rows, row.hash) then rows else rows + [row]
  }

  function Next(s: State, step: Step): State {
    match step
    case ReadHead(caller, input) =>
      if caller in s.pending then s
      else s.(pending := s.pending[caller := Pending(ContentOf(input), HeadOf(RowsOf(s.rows, input.entity)))])
    case Insert(caller) =>
      if caller !in s.pending then s
      else State(InsertRow(s.rows, RowFor(s.pending[caller])), s.pending - {caller})
  }

  function Exec(s: State, steps: seq<Step>): State
    decreases |steps|
  {
    if steps == [] then s else Exec(Next(s, steps[0]), steps[1..])
  }

  const EMPTY := State([], map[])

  /** Every row's previous hash is the hash of the row before it. */
  predicate ContinuousFrom(es: seq<Row>, prev: Option<LedgerHash>) {
    es == [] || (es[0].previous == prev && ContinuousFrom(es[1..], Some(es[0].hash)))
  }

  predicate Continuous(es: seq<Row>) {
    ContinuousFrom(es, None)
  }

  // ---------- what every interleaving keeps ----------

  ghost predicate DistinctHashes(es: seq<Row>) {
    forall i, j :: 0 <= i < j < |es| ==> es[i].hash != es[j].hash
  }

  ghost predicate Known(es: seq<Row>, hash: Option<LedgerHash>) {
    hash.None? || HashStored(es, hash.value)
  }

  /** One entity's rows: distinct hashes of what they hold, each built on nothing or on an
      earlier row. */
  ghost predicate Linked(es: seq<Row>) {
    && DistinctHashes(es)
    && (forall i :: 0 <= i < |es| ==> es[i].hash == LedgerHash(es[i].content, es[i].previous))
    && (forall i :: 0 <= i < |es| ==> Known(es[..i], es[i].previous))
  }

  ghost predicate Inv(s: State) {
    && (forall e :: Linked(RowsOf(s.rows, e)))
    && (forall caller :: caller in s.pending ==>
          Known(RowsOf(s.rows, s.pending[caller].content.entity), s.pending[caller].head))
    && (forall i :: 0 <= i < |s.rows| ==> s.rows[i].hash == LedgerHash(s.rows[i].content, s.rows[i].previous))
  }

  lemma {:induction false} RowsOfGrow(rows: seq<Row>, row: Row, e: Entity)
    ensures RowsOf(rows + [row], e) == if row.content.entity == e then RowsOf(rows, e) + [row] else RowsOf(rows, e)
  {
    assert (rows + [row])[..|rows|] == rows;
  }

  lemma {:induction false} RowsOfMembers(rows: seq<Row>, e: Entity)
    ensures forall r :: r in RowsOf(rows, e) <==> r in rows && r.content.entity == e
  {
    if rows != [] {
      var front, last := rows[..|rows| - 1], rows[|rows| - 1];
      RowsOfMembers(front, e);
      assert rows == front + [last];
    }
  }

  lemma {:induction false} KnownGrows(es: seq<Row>, row: Row, hash: Option<LedgerHash>)
    requires Known(es, hash)
    ensures Known(es + [row], hash)
  {
    if hash.Some? {
      var i :| 0 <= i < |es| && es[i].hash == hash.value;
      assert (es + [row])[i].hash == hash.value;
    }
  }

  lemma {:induction false} LinkedGrows(es: seq<Row>, row: Row)
    requires Linked(es) && Known(es, row.previous) && !HashStored(es, row.hash)
    requires row.hash == LedgerHash(row.content, row.previous)
    ensures Linked(es + [row])
  {
    var grown := es + [row];
    forall i | 0 <= i < |grown|
      ensures Known(grown[..i], grown[i].previous)
    {
      assert grown[..i] == es[..i];
      assert es[..|es|] == es;
    }
  }

  /** A hash is stored for an entity exactly when it is stored at all. */
  lemma {:induction false} StoredInEntity(s: State, p: Pending)
    requires Inv(s)
    ensures HashStored(s.rows, RowFor(p).hash) <==> HashStored(RowsOf(s.rows, p.content.entity), RowFor(p).hash)
  {
    var es := RowsOf(s.rows, p.content.entity);
    RowsOfMembers(s.rows, p.content.entity);
    if HashStored(s.rows, RowFor(p).hash) {
      var i :| 0 <= i < |s.rows| && s.rows[i].hash == RowFor(p).hash;
      assert s.rows[i] in es;
      var j :| 0 <= j < |es| && es[j] == s.rows[i];
    }
    if HashStored(es, RowFor(p).hash) {
      var j :| 0 <= j < |es| && es[j].hash == RowFor(p).hash;
      assert es[j] in s.rows;
      var i :| 0 <= i < |s.rows| && s.rows[i] == es[j];
    }
  }

  lemma {:induction false} InsertKeepsInv(s: State, caller: nat)
    requires Inv(s) && caller in s.pending && !HashStored(s.rows, RowFor(s.pending[caller]).hash)
    ensures Inv(Next(s, Insert(caller)))
  {
    var p, t := s.pending[caller], Next(s, Insert(caller));
    var row := RowFor(p);
    StoredInEntity(s, p);
    forall e
      ensures Linked(RowsOf(t.rows, e))
    {
      RowsOfGrow(s.rows, row, e);
      if e == p.content.entity {
        LinkedGrows(RowsOf(s.rows, e), row);
      }
    }
    forall c | c in t.pending
      ensures Known(RowsOf(t.rows, t.pending[c].content.entity), t.pending[c].head)
    {
      var e := t.pending[c].content.entity;
      RowsOfGrow(s.rows, row, e);
      KnownGrows(RowsOf(s.rows, e), row, t.pending[c].head);
    }
  }

  lemma {:induction false} StepKeepsInv(s: State, step: Step)
    requires Inv(s)
    ensures Inv(Next(s, step))
  {
    match step
    case ReadHead(caller, input) =>
      var es := RowsOf(s.rows, input.entity);
      if es != [] {
        assert es[|es| - 1].hash == HeadOf(es).value;
      }
    case Insert(caller) =>
      if caller in s.pending && !HashStored(s.rows, RowFor(s.pending[caller]).hash) {
        InsertKeepsInv(s, caller);
      }
  }

  lemma {:induction false} RunKeepsInv(s: State, steps: seq<Step>)
    requires Inv(s)
    ensures Inv(Exec(s, steps))
    decreases |steps|
  {
    if steps != [] {
      StepKeepsInv(s, steps[0]);
      RunKeepsInv(Next(s, steps[0]), steps[1..]);
    }
  }

  // ---------- fork detection ----------

  /** `ContinuousFrom`, row by row. */
  ghost predicate Chained(es: seq<Row>, prev: Option<LedgerHash>) {
    forall k :: 0 <= k < |es| ==> es[k].previous == PreviousAt(es, prev, k)
  }

  ghost function PreviousAt(es: seq<Row>, prev: Option<LedgerHash>, k: nat): Option<LedgerHash>
    requires k <= |es|
  {
    if k == 0 then prev else Some(es[k - 1].hash)
  }

  lemma {:induction false} ContinuousFromMeans(es: seq<Row>, prev: Option<LedgerHash>)
    ensures ContinuousFrom(es, prev) <==> Chained(es, prev)
  {
    if es != [] {
      var tail, next := es[1..], Some(es[0].hash);
      ContinuousFromMeans(tail, next);
      assert es[0].previous == prev && Chained(tail, next) ==> Chained(es, prev) by {
        if es[0].previous == prev && Chained(tail, next) {
          forall k | 0 <= k < |es|
            ensures es[k].previous == PreviousAt(es, prev, k)
          {
            if k > 0 {
              assert tail[k - 1].previous == PreviousAt(tail, next, k - 1);
            }
          }
        }
      }
      assert Chained(es, prev) ==> Chained(tail, next) by {
        if Chained(es, prev) {
          forall k | 0 <= k < |tail|
            ensures tail[k].previous == PreviousAt(tail, next, k)
          {
            assert es[k + 1].previous == PreviousAt(es, prev, k + 1);
          }
        }
      }
      assert Chained(es, prev) ==> es[0].previous == PreviousAt(es, prev, 0);
    }
  }

  /** Two rows computed from the same head. */
  ghost predicate Forked(es: seq<Row>) {
    exists i, j :: 0 <= i < j < |es| && es[i].previous == es[j].previous
  }

  lemma {:induction false} UnforkedDiffer(es: seq<Row>, i: nat, j: nat)
    requires !Forked(es) && i < j < |es|
    ensures es[i].previous != es[j].previous
  {}

  lemma {:induction false} UnforkedLinks(es: seq<Row>, k: nat)
    requires Linked(es) && !Forked(es) && k < |es|
    ensures es[k].previous == PreviousAt(es, None, k)
    decreases k
  {
    var prev := es[k].previous;
    assert Known(es[..k], prev);
    if k > 0 {
      UnforkedDiffer(es, 0, k);
      UnforkedLinks(es, 0);
      var i :| 0 <= i < |es[..k]| && es[..k][i].hash == prev.value;
      if i < k - 1 {
        UnforkedDiffer(es, i + 1, k);
        UnforkedLinks(es, i + 1);
      }
    }
  }

  lemma {:induction false} ChainedIsUnforked(es: seq<Row>)
    requires Linked(es) && Chained(es, None)
    ensures !Forked(es)
  {
    forall i, j | 0 <= i < j < |es|
      ensures es[i].previous != es[j].previous
    {
      assert es[i].previous == PreviousAt(es, None, i) && es[j].previous == PreviousAt(es, None, j);
      if i > 0 {
        assert es[i - 1].hash != es[j - 1].hash;
      }
    }
  }

  /** In every run, whatever the interleaving, an entity verifies exactly when no two of
      its rows were computed from the same head. */
  lemma {:induction false} VerifiesIffUnforked(steps: seq<Step>, e: Entity)
    ensures var es := RowsOf(Exec(EMPTY, steps).rows, e);
      Continuous(es) <==> !Forked(es)
  {
    EmptyInv();
    RunKeepsInv(EMPTY, steps);
    var es := RowsOf(Exec(EMPTY, steps).rows, e);
    ContinuousFromMeans(es, None);
    if Chained(es, None) {
      ChainedIsUnforked(es);
    }
    if !Forked(es) {
      forall k | 0 <= k < |es|
        ensures es[k].previous == PreviousAt(es, None, k)
      {
        UnforkedLinks(es, k);
      }
    }
  }

  lemma {:induction false} EmptyInv()
    ensures Inv(EMPTY)
  {
    assert forall e :: RowsOf([], e) == [];
  }

  lemma {:induction false} ContinuousPrefix(es: seq<Row>, row: Row)
    requires Continuous(es + [row])
    ensures Continuous(es)
  {
    ContinuousFromMeans(es, None);
    ContinuousFromMeans(es + [row], None);
    forall k | 0 <= k < |es|
      ensures es[k].previous == PreviousAt(es, None, k)
    {
      assert (es + [row])[k].previous == PreviousAt(es + [row], None, k);
    }
  }

  lemma {:induction false} StepKeepsFork(s: State, step: Step, e: Entity)
    requires !Continuous(RowsOf(s.rows, e))
    ensures !Continuous(RowsOf(Next(s, step).rows, e))
  {
    if step.Insert? && step.caller in s.pending {
      var row := RowFor(s.pending[step.caller]);
      RowsOfGrow(s.rows, row, e);
      if Continuous(RowsOf(s.rows, e) + [row]) {
        ContinuousPrefix(RowsOf(s.rows, e), row);
      }
    }
  }

  /** A fork never heals: nothing appended later makes the entity verify again. */
  lemma {:induction false} ForksLast(s: State, steps: seq<Step>, e: Entity)
    requires !Continuous(RowsOf(s.rows, e))
    ensures !Continuous(RowsOf(Exec(s, steps).rows, e))
    decreases |steps|
  {
    if steps != [] {
      StepKeepsFork(s, steps[0], e);
      ForksLast(Next(s, steps[0]), steps[1..], e);
    }
  }

  /** An insert is dropped exactly when the same content was already stored on top of the
      same head. */
  lemma {:induction false} DroppedIffDuplicate(steps: seq<Step>, caller: nat)
    requires caller in Exec(EMPTY, steps).pending
    ensures var s := Exec(EMPTY, steps);
      var p := s.pending[caller];
      Next(s, Insert(caller)).rows == s.rows <==>
        exists i :: 0 <= i < |s.rows| && s.rows[i].content == p.content && s.rows[i].previous == p.head
  {
    EmptyInv();
    RunKeepsInv(EMPTY, steps);
    var s := Exec(EMPTY, steps);
    var row := RowFor(s.pending[caller]);
    assert |s.rows + [row]| != |s.rows|;
    if HashStored(s.rows, row.hash) {
      var i :| 0 <= i < |s.rows| && s.rows[i].hash == row.hash;
      assert s.rows[i].content == row.content && s.rows[i].previous == row.previous;
    }
  }

  // ---------- serial appends ----------

  function Append(s: State, caller: nat, input: Input): State {
    Next(Next(s, ReadHead(caller, input)), Insert(caller))
  }

  ghost predicate AllContinuous(s: State) {
    forall e :: Continuous(RowsOf(s.rows, e))
  }

  lemma {:induction false} NewHeadIsFresh(es: seq<Row>, content: Content)
    requires Linked(es) && Continuous(es)
    ensures !HashStored(es, LedgerHash(content, HeadOf(es)))
  {
    ContinuousFromMeans(es, None);
    forall i | 0 <= i < |es|
      ensures es[i].hash != LedgerHash(content, HeadOf(es))
    {
      assert es[i].previous == PreviousAt(es, None, i);
      assert i > 0 ==> es[i - 1].hash != es[|es| - 1].hash;
    }
  }

  lemma {:induction false} ContinuousGrows(es: seq<Row>, row: Row)
    requires Continuous(es) && row.previous == HeadOf(es)
    ensures Continuous(es + [row])
  {
    ContinuousFromMeans(es, None);
    ContinuousFromMeans(es + [row], None);
  }

  lemma {:induction false} AppendedContinuous(s: State, p: Pending)
    requires AllContinuous(s) && p.head == HeadOf(RowsOf(s.rows, p.content.entity))
    ensures AllContinuous(s.(rows := s.rows + [RowFor(p)]))
  {
    hide Continuous, HeadOf;
    forall e
      ensures Continuous(RowsOf(s.rows + [RowFor(p)], e))
    {
      RowsOfGrow(s.rows, RowFor(p), e);
      assert Continuous(RowsOf(s.rows, e));
      if e == p.content.entity {
        ContinuousGrows(RowsOf(s.rows, e), RowFor(p));
      }
    }
  }

  /** An append that is not interleaved is never dropped and keeps every entity verifying. */
  lemma {:induction false} SerialAppend(s: State, caller: nat, input: Input)
    requires Inv(s) && AllContinuous(s) && caller !in s.pending
    ensures var t := Append(s, caller, input);
      && Inv(t) && AllContinuous(t) && t.pending == s.pending
      && t.rows == s.rows + [RowFor(Pending(ContentOf(input), HeadOf(RowsOf(s.rows, input.entity))))]
  {
    var mid := Next(s, ReadHead(caller, input));
    var p := mid.pending[caller];
    StepKeepsInv(s, ReadHead(caller, input));
    StepKeepsInv(mid, Insert(caller));
    NewHeadIsFresh(RowsOf(s.rows, input.entity), p.content);
    StoredInEntity(s, p);
    var t := Append(s, caller, input);
    hide Inv, RowsOf, AllContinuous, Continuous, HashStored;
    assert t.rows == s.rows + [RowFor(p)];
    assert t.pending == s.pending;
    AppendedContinuous(s, p);
  }

  function AppendAll(s: State, inputs: seq<Input>): State
    decreases |inputs|
  {
    if inputs == [] then s else AppendAll(Append(s, 0, inputs[0]), inputs[1..])
  }

  lemma {:induction false} SerialAppends(s: State, inputs: seq<Input>)
    requires Inv(s) && AllContinuous(s) && 0 !in s.pending
    ensures AllContinuous(AppendAll(s, inputs))
    ensures |AppendAll(s, inputs).rows| == |s.rows| + |inputs|
    decreases |inputs|
  {
    if inputs != [] {
      SerialAppend(s, 0, inputs[0]);
      SerialAppends(Append(s, 0, inputs[0]), inputs[1..]);
    }
  }

  /** In a serial run no append is lost and every entity always verifies. */
  lemma {:induction false} SerialRunsVerify(inputs: seq<Input>, e: Entity)
    ensures Continuous(RowsOf(AppendAll(EMPTY, inputs).rows, e))
    ensures |AppendAll(EMPTY, inputs).rows| == |inputs|
  {
    EmptyInv();
    assert forall x :: RowsOf([], x) == [];
    SerialAppends(EMPTY, inputs);
  }

  // ---------- the head commits to the history ----------

  lemma {:induction false} LinkedPrefix(es: seq<Row>)
    requires Linked(es) && Continuous(es) && es != []
    ensures Linked(es[..|es| - 1]) && Continuous(es[..|es| - 1])
    ensures es[|es| - 1].previous == HeadOf(es[..|es| - 1])
  {
    var front, last := es[..|es| - 1], es[|es| - 1];
    assert es == front + [last];
    ContinuousPrefix(front, last);
    forall i | 0 <= i < |front|
      ensures Known(front[..i], front[i].previous)
    {
      assert front[..i] == es[..i];
      assert Known(es[..i], es[i].previous);
    }
    LastLink(es);
  }

  lemma {:induction false} LastLink(es: seq<Row>)
    requires Continuous(es) && es != []
    ensures es[|es| - 1].previous == HeadOf(es[..|es| - 1])
  {
    ContinuousFromMeans(es, None);
    assert es[|es| - 1].previous == PreviousAt(es, None, |es| - 1);
  }

  lemma {:induction false} SameHeadSameRows(es: seq<Row>, fs: seq<Row>)
    requires Linked(es) && Continuous(es) && Linked(fs) && Continuous(fs)
    requires HeadOf(es) == HeadOf(fs)
    ensures es == fs
    decreases |es|
  {
    if es != [] {
      LinkedPrefix(es);
      LinkedPrefix(fs);
      SameHeadSameRows(es[..|es| - 1], fs[..|fs| - 1]);
      assert es == es[..|es| - 1] + [es[|es| - 1]];
      assert fs == fs[..|fs| - 1] + [fs[|fs| - 1]];
    }
  }

  /** Take any two runs, and an entity of each. If the first verifies and both have the same
      last hash, then they hold the same rows, hash for hash, exactly when the second
      verifies too. */
  lemma {:induction false} HeadCommitsToHistory(steps1: seq<Step>, e1: Entity, steps2: seq<Step>, e2: Entity)
    requires var es, fs := RowsOf(Exec(EMPTY, steps1).rows, e1), RowsOf(Exec(EMPTY, steps2).rows, e2);
      Continuous(es) && HeadOf(es) == HeadOf(fs)
    ensures var es, fs := RowsOf(Exec(EMPTY, steps1).rows, e1), RowsOf(Exec(EMPTY, steps2).rows, e2);
      es == fs <==> Continuous(fs)
  {
    EmptyInv();
    RunKeepsInv(EMPTY, steps1);
    RunKeepsInv(EMPTY, steps2);
    var es, fs := RowsOf(Exec(EMPTY, steps1).rows, e1), RowsOf(Exec(EMPTY, steps2).rows, e2);
    if Continuous(fs) {
      SameHeadSameRows(es, fs);
    }
  }

  /** The rows a hash was built on, oldest first, and the row it belongs to. */
  function ChainOf(hash: LedgerHash): seq<Row> {
    (if hash.previous.None? then [] else ChainOf(hash.previous.value)) + [Row(hash.content, hash.previous, hash)]
  }

  /** `sub` is what is left of `s` when some of its rows are struck out. */
  predicate Subsequence(sub: seq<Row>, s: seq<Row>) {
    if sub == [] || s == [] then sub == []
    else if sub[|sub| - 1] == s[|s| - 1] then Subsequence(sub[..|sub| - 1], s[..|s| - 1])
    else Subsequence(sub, s[..|s| - 1])
  }

  lemma {:induction false} SubsequenceGrows(sub: seq<Row>, s: seq<Row>, row: Row)
    requires Subsequence(sub, s)
    ensures Subsequence(sub + [row], s + [row])
  {
    assert (sub + [row])[..|sub|] == sub && (s + [row])[..|s|] == s;
  }

  lemma {:induction false} SubsequenceOfLonger(sub: seq<Row>, s: seq<Row>, k: nat)
    requires k <= |s| && Subsequence(sub, s[..k])
    ensures Subsequence(sub, s)
  {
    if k == |s| {
      assert s[..k] == s;
    } else {
      assert s[..|s| - 1][..k] == s[..k];
      SubsequenceOfLonger(sub, s[..|s| - 1], k);
      if sub != [] && sub[|sub| - 1] == s[|s| - 1] {
        SubsequenceFront(sub, s[..|s| - 1]);
      }
    }
  }

  lemma {:induction false} SubsequenceFront(sub: seq<Row>, s: seq<Row>)
    requires sub != [] && Subsequence(sub, s)
    ensures Subsequence(sub[..|sub| - 1], s)
  {
    var front := sub[..|sub| - 1];
    if sub[|sub| - 1] == s[|s| - 1] {
      assert Subsequence(front, s[..|s| - 1]);
    } else {
      SubsequenceFront(sub, s[..|s| - 1]);
    }
    SubsequenceWeaken(front, s);
  }

  lemma {:induction false} SubsequenceWeaken(sub: seq<Row>, s: seq<Row>)
    requires s != [] && Subsequence(sub, s[..|s| - 1])
    ensures Subsequence(sub, s)
  {
    if sub != [] && sub[|sub| - 1] == s[|s| - 1] {
      SubsequenceFront(sub, s[..|s| - 1]);
    }
  }

  lemma {:induction false} ChainIsStored(es: seq<Row>, i: nat)
    requires Linked(es) && i < |es|
    ensures Subsequence(ChainOf(es[i].hash), es[..i + 1])
    decreases i
  {
    var row := es[i];
    assert row == Row(row.hash.content, row.hash.previous, row.hash);
    assert es[..i + 1] == es[..i] + [row];
    if row.previous.None? {
      assert Subsequence([], es[..i]);
      SubsequenceGrows([], es[..i], row);
    } else {
      assert Known(es[..i], row.previous);
      var k :| 0 <= k < |es[..i]| && es[..i][k].hash == row.previous.value;
      ChainIsStored(es, k);
      assert es[..i][..k + 1] == es[..k + 1];
      SubsequenceOfLonger(ChainOf(es[k].hash), es[..i], k + 1);
      SubsequenceGrows(ChainOf(es[k].hash), es[..i], row);
    }
  }

  /** What a head commits to in every run, verified or not, is its own chain: two entities of
      any two runs with the same last hash both store every row on that chain, in order. */
  lemma {:induction false} HeadCommitsToChain(steps1: seq<Step>, e1: Entity, steps2: seq<Step>, e2: Entity)
    requires var h1 := HeadOf(RowsOf(Exec(EMPTY, steps1).rows, e1));
      h1.Some? && h1 == HeadOf(RowsOf(Exec(EMPTY, steps2).rows, e2))
    ensures var head := HeadOf(RowsOf(Exec(EMPTY, steps1).rows, e1)).value;
      && Subsequence(ChainOf(head), RowsOf(Exec(EMPTY, steps1).rows, e1))
      && Subsequence(ChainOf(head), RowsOf(Exec(EMPTY, steps2).rows, e2))
      && Continuous(ChainOf(head))
  {
    var head := HeadOf(RowsOf(Exec(EMPTY, steps1).rows, e1)).value;
    HeadChainStored(steps1, e1);
    HeadChainStored(steps2, e2);
    ChainIsContinuous(head);
  }

  lemma {:induction false} HeadChainStored(steps: seq<Step>, e: Entity)
    requires RowsOf(Exec(EMPTY, steps).rows, e) != []
    ensures var es := RowsOf(Exec(EMPTY, steps).rows, e);
      Subsequence(ChainOf(es[|es| - 1].hash), es)
  {
    EmptyInv();
    RunKeepsInv(EMPTY, steps);
    var es := RowsOf(Exec(EMPTY, steps).rows, e);
    ChainIsStored(es, |es| - 1);
    assert es[..|es| - 1 + 1] == es;
  }

  lemma {:induction false} ChainIsContinuous(hash: LedgerHash)
    ensures Continuous(ChainOf(hash)) && ChainOf(hash)[|ChainOf(hash)| - 1].hash == hash
  {
    var row := Row(hash.content, hash.previous, hash);
    if hash.previous.None? {
      assert ChainOf(hash) == [row];
    } else {
      var front := ChainOf(hash.previous.value);
      ChainIsContinuous(hash.previous.value);
      ContinuousGrows(front, row);
    }
  }

  /** Callers 1 and 2 both read the head left by caller 0, then insert `b` and `c`. */
  function ForkedRun(a: Input, b: Input, c: Input): seq<Step> {
    [ReadHead(0, a), Insert(0)] + [ReadHead(1, b), ReadHead(2, c), Insert(1), Insert(2)]
  }

  function PlainRun(a: Input, c: Input): seq<Step> {
    [ReadHead(0, a), Insert(0)] + [ReadHead(2, c), Insert(2)]
  }

  lemma {:induction false} EntityOf(input: Input)
    ensures ContentOf(input).entity == input.entity
  {}

  lemma {:induction false} NoRows(e: Entity)
    ensures RowsOf([], e) == []
  {}

  lemma {:induction false} ForkedRows(a: Input, b: Input, c: Input)
    requires a.entity == b.entity == c.entity && ContentOf(b) != ContentOf(c)
    ensures var r0 := RowFor(Pending(ContentOf(a), None));
      RowsOf(Exec(EMPTY, ForkedRun(a, b, c)).rows, a.entity)
      == [r0] + [RowFor(Pending(ContentOf(b), Some(r0.hash)))] + [RowFor(Pending(ContentOf(c), Some(r0.hash)))]
  {
    var r0 := RowFor(Pending(ContentOf(a), None));
    var r1, r2 := RowFor(Pending(ContentOf(b), Some(r0.hash))), RowFor(Pending(ContentOf(c), Some(r0.hash)));
    EntityOf(a);
    EntityOf(b);
    EntityOf(c);
    hide Exec, RowsOf, ContentOf;
    OneAppend(a);
    ExecSplit(EMPTY, [ReadHead(0, a), Insert(0)], [ReadHead(1, b), ReadHead(2, c), Insert(1), Insert(2)]);
    ForkedTail(r0, b, c);
    NoRows(a.entity);
    RowsOfGrow([], r0, a.entity);
    RowsOfGrow([r0], r1, a.entity);
    RowsOfGrow([r0] + [r1], r2, a.entity);
    assert [r0] + [r1] + [r2] == [r0, r1, r2] && [] + [r0] == [r0];
  }

  lemma {:induction false} PlainRows(a: Input, c: Input)
    requires a.entity == c.entity
    ensures var r0 := RowFor(Pending(ContentOf(a), None));
      RowsOf(Exec(EMPTY, PlainRun(a, c)).rows, a.entity) == [r0] + [RowFor(Pending(ContentOf(c), Some(r0.hash)))]
  {
    var r0 := RowFor(Pending(ContentOf(a), None));
    var r2 := RowFor(Pending(ContentOf(c), Some(r0.hash)));
    EntityOf(a);
    EntityOf(c);
    NoRows(a.entity);
    hide Exec, RowsOf, ContentOf;
    OneAppend(a);
    ExecSplit(EMPTY, [ReadHead(0, a), Insert(0)], [ReadHead(2, c), Insert(2)]);
    PlainTail(r0, c);
    RowsOfGrow([], r0, a.entity);
    RowsOfGrow([r0], r2, a.entity);
    assert [r0] + [r2] == [r0, r2] && [] + [r0] == [r0];
  }

  /** Without verification the last hash says nothing about rows on another branch: these
      two runs end in the same hash and differ in length. */
  lemma {:induction false} ForkHidesBehindHead(a: Input, b: Input, c: Input)
    requires a.entity == b.entity == c.entity && ContentOf(b) != ContentOf(c)
    ensures var es := RowsOf(Exec(EMPTY, ForkedRun(a, b, c)).rows, a.entity);
      var fs := RowsOf(Exec(EMPTY, PlainRun(a, c)).rows, a.entity);
      HeadOf(es) == HeadOf(fs) && |es| == 3 && |fs| == 2 && !Continuous(es) && Continuous(fs)
  {
    ForkedRows(a, b, c);
    PlainRows(a, c);
    var es := RowsOf(Exec(EMPTY, ForkedRun(a, b, c)).rows, a.entity);
    var fs := RowsOf(Exec(EMPTY, PlainRun(a, c)).rows, a.entity);
    hide ContentOf, Exec, RowsOf, ForkedRun, PlainRun;
    ContinuousFromMeans(es, None);
    ContinuousFromMeans(fs, None);
    assert es[2].previous != PreviousAt(es, None, 2);
  }

  lemma {:induction false} ExecSplit(s: State, first: seq<Step>, second: seq<Step>)
    ensures Exec(s, first + second) == Exec(Exec(s, first), second)
    decreases |first|
  {
    if first == [] {
      assert first + second == second;
    } else {
      assert (first + second)[1..] == first[1..] + second;
      ExecSplit(Next(s, first[0]), first[1..], second);
    }
  }

  lemma {:induction false} ExecOne(s: State, step: Step, rest: seq<Step>)
    ensures Exec(s, [step] + rest) == Exec(Next(s, step), rest)
  {
    assert ([step] + rest)[1..] == rest;
  }

  lemma {:induction false} OneAppend(a: Input)
    ensures Exec(EMPTY, [ReadHead(0, a), Insert(0)]) == State([RowFor(Pending(ContentOf(a), None))], map[])
  {
    var s1 := Next(EMPTY, ReadHead(0, a));
    assert RowsOf([], a.entity) == [];
    ExecOne(EMPTY, ReadHead(0, a), [Insert(0)]);
    ExecOne(s1, Insert(0), []);
    assert s1.pending - {0} == map[];
  }

  lemma {:induction false} ForkedTail(r0: Row, b: Input, c: Input)
    requires r0.previous == None && r0.content.entity == b.entity == c.entity
    requires r0.hash == LedgerHash(r0.content, None) && ContentOf(b) != ContentOf(c)
    ensures Exec(State([r0], map[]), [ReadHead(1, b), ReadHead(2, c), Insert(1), Insert(2)]).rows
         == [r0, RowFor(Pending(ContentOf(b), Some(r0.hash))), RowFor(Pending(ContentOf(c), Some(r0.hash)))]
  {
    var s := State([r0], map[]);
    HeadOfOne(r0);
    var p1, p2 := Pending(ContentOf(b), Some(r0.hash)), Pending(ContentOf(c), Some(r0.hash));
    var s1 := Next(s, ReadHead(1, b));
    var s2 := Next(s1, ReadHead(2, c));
    assert s2 == State([r0], map[1 := p1, 2 := p2]);
    var s3 := Next(s2, Insert(1));
    assert !HashStored([r0], RowFor(p1).hash);
    assert s3.rows == [r0, RowFor(p1)] && s3.pending[2] == p2;
    assert !HashStored(s3.rows, RowFor(p2).hash);
    ExecOne(s, ReadHead(1, b), [ReadHead(2, c), Insert(1), Insert(2)]);
    ExecOne(s1, ReadHead(2, c), [Insert(1), Insert(2)]);
    ExecOne(s2, Insert(1), [Insert(2)]);
    ExecOne(s3, Insert(2), []);
  }

  lemma {:induction false} PlainTail(r0: Row, c: Input)
    requires r0.previous == None && r0.content.entity == c.entity && r0.hash == LedgerHash(r0.content, None)
    ensures Exec(State([r0], map[]), [ReadHead(2, c), Insert(2)]).rows
         == [r0, RowFor(Pending(ContentOf(c), Some(r0.hash)))]
  {
    var s := State([r0], map[]);
    HeadOfOne(r0);
    var p := Pending(ContentOf(c), Some(r0.hash));
    var s1 := Next(s, ReadHead(2, c));
    assert !HashStored([r0], RowFor(p).hash);
    ExecOne(s, ReadHead(2, c), [Insert(2)]);
    ExecOne(s1, Insert(2), []);
  }

  lemma {:induction false} HeadOfOne(r0: Row)
    ensures HeadOf(RowsOf([r0], r0.content.entity)) == Some(r0.hash)
  {
    RowsOfGrow([], r0, r0.content.entity);
    assert [] + [r0] == [r0];
  }

  // ---------- what was appended ----------

  /** Equal up to reordering of object keys, in what hashing can see. */
  ghost predicate Alike(a: Json, b: Json) {
    Canonical.Same(Canonical.Visible(a), Canonical.Visible(b))
  }

  ghost predicate WellFormedInput(input: Input) {
    && Canonical.WellFormed(input.after)
    && (input.before.Some? ==> Canonical.WellFormed(input.before.value))
    && (input.payload.Some? ==> Canonical.WellFormed(input.payload.value))
  }

  /** What a payload counts as: left out or `null`, the empty object. */
  function Shown(payload: Option<Json>): Json {
    match payload
    case None => Canonical.Object([])
    case Some(Null) => Canonical.Object([])
    case Some(value) => value
  }

  /** The same mutation of the same entity by the same actor, from alike to alike, with alike
      payloads. */
  ghost predicate SameAppend(a: Input, b: Input) {
    && a.correlationId == b.correlationId && a.entity == b.entity
    && a.mutationType == b.mutationType && a.actor == b.actor
    && (a.before.Some? <==> b.before.Some?) && (a.before.Some? ==> Alike(a.before.value, b.before.value))
    && Alike(a.after, b.after)
    && Alike(Shown(a.payload), Shown(b.payload))
  }

  /** What is hashed tells appends apart exactly so far. */
  lemma {:induction false} ContentLaw(a: Input, b: Input)
    requires WellFormedInput(a) && WellFormedInput(b)
    ensures ContentOf(a) == ContentOf(b) <==> SameAppend(a, b)
  {
    hide Canonical.Same, Canonical.Visible, Canonical.Sha256;
    Canonical.HashesAgreeExactly(a.after, b.after);
    if a.before.Some? && b.before.Some? {
      Canonical.HashesAgreeExactly(a.before.value, b.before.value);
    }
    EmptyObjectIsWellFormed();
    Canonical.HashesAgreeExactly(Shown(a.payload), Shown(b.payload));
  }

  lemma {:induction false} EmptyObjectIsWellFormed()
    ensures Canonical.WellFormed(Canonical.Object([]))
  {}

  /** What is hashed names the mutation as it was given, and each of its three hashes is that of
      exactly the values like the one it stands for. */
  lemma {:induction false} ContentShows(input: Input, value: Json)
    requires WellFormedInput(input) && Canonical.WellFormed(value)
    ensures var c, hash := ContentOf(input), Canonical.Sha256(value);
      && c.correlationId == input.correlationId && c.entity == input.entity
      && c.mutationType == input.mutationType && c.actor == input.actor
      && (c.beforeHash.Some? <==> input.before.Some?)
      && (c.beforeHash == Some(hash) <==> input.before.Some? && Alike(input.before.value, value))
      && (c.afterHash == hash <==> Alike(input.after, value))
      && (c.payloadHash == hash <==> Alike(Shown(input.payload), value))
  {
    hide Canonical.Same, Canonical.Visible, Canonical.Sha256;
    Canonical.HashesAgreeExactly(input.after, value);
    if input.before.Some? {
      Canonical.HashesAgreeExactly(input.before.value, value);
    }
    EmptyObjectIsWellFormed();
    Canonical.HashesAgreeExactly(Shown(input.payload), value);
  }

  /** A run together with the input behind every stored row and every pending append. */
  datatype Trace = Trace(state: State, inputs: seq<Input>, pending: map<nat, Input>)

  ghost function TraceNext(t: Trace, step: Step): Trace {
    var s := Next(t.state, step);
    match step
    case ReadHead(caller, input) =>
      Trace(s, t.inputs, if caller in t.state.pending then t.pending else t.pending[caller := input])
    case Insert(caller) =>
      if caller !in t.pending || s.rows == t.state.rows then Trace(s, t.inputs, t.pending - {caller})
      else Trace(s, t.inputs + [t.pending[caller]], t.pending - {caller})
  }

  ghost function TraceOf(t: Trace, steps: seq<Step>): Trace
    decreases |steps|
  {
    if steps == [] then t else TraceOf(TraceNext(t, steps[0]), steps[1..])
  }

  const NOTHING := Trace(EMPTY, [], map[])

  ghost predicate Traced(t: Trace) {
    && |t.inputs| == |t.state.rows| && t.pending.Keys == t.state.pending.Keys
    && (forall i :: 0 <= i < |t.inputs| ==>
          WellFormedInput(t.inputs[i]) && t.state.rows[i].content == ContentOf(t.inputs[i]))
    && (forall c <- t.pending :: WellFormedInput(t.pending[c]) && t.state.pending[c].content == ContentOf(t.pending[c]))
  }

  ghost predicate WellFormedSteps(steps: seq<Step>) {
    forall i :: 0 <= i < |steps| && steps[i].ReadHead? ==> WellFormedInput(steps[i].input)
  }

  lemma {:induction false} StepKeepsTrace(t: Trace, step: Step)
    requires Traced(t) && (step.ReadHead? ==> WellFormedInput(step.input))
    ensures Traced(TraceNext(t, step)) && TraceNext(t, step).state == Next(t.state, step)
  {
    hide ContentOf, WellFormedInput, RowsOf, HashStored;
    if step.Insert? && step.caller in t.pending {
      var p := t.state.pending[step.caller];
      assert |t.state.rows + [RowFor(p)]| != |t.state.rows|;
    }
  }

  lemma {:induction false} RunKeepsTrace(t: Trace, steps: seq<Step>)
    requires Traced(t) && WellFormedSteps(steps)
    ensures Traced(TraceOf(t, steps)) && TraceOf(t, steps).state == Exec(t.state, steps)
    decreases |steps|
  {
    if steps != [] {
      assert steps[0].ReadHead? ==> WellFormedInput(steps[0].input);
      assert forall i :: 0 <= i < |steps[1..]| ==> steps[1..][i] == steps[i + 1];
      StepKeepsTrace(t, steps[0]);
      hide Traced, TraceNext, Next;
      RunKeepsTrace(TraceNext(t, steps[0]), steps[1..]);
    }
  }

  /** In every run, an insert is dropped exactly when the same append was already stored on top of
      the same head. */
  lemma {:induction false} DroppedIffSameAppend(steps: seq<Step>, caller: nat)
    requires WellFormedSteps(steps) && caller in TraceOf(NOTHING, steps).pending
    ensures var t := TraceOf(NOTHING, steps);
      && caller in t.state.pending && |t.inputs| == |t.state.rows|
      && (Next(t.state, Insert(caller)).rows == t.state.rows <==>
            exists i :: 0 <= i < |t.inputs| && SameAppend(t.inputs[i], t.pending[caller])
                        && t.state.rows[i].previous == t.state.pending[caller].head)
  {
    RunKeepsTrace(NOTHING, steps);
    DroppedIffDuplicate(steps, caller);
    var t := TraceOf(NOTHING, steps);
    hide Exec, TraceOf, SameAppend, ContentOf, WellFormedInput, Next, WellFormedSteps;
    forall i | 0 <= i < |t.inputs|
      ensures t.state.rows[i].content == t.state.pending[caller].content <==> SameAppend(t.inputs[i], t.pending[caller])
    {
      ContentLaw(t.inputs[i], t.pending[caller]);
    }
  }

  /** The inputs behind an entity's rows. */
  ghost function InputsOf(rows: seq<Row>, inputs: seq<Input>, e: Entity): seq<Input>
    requires |rows| == |inputs|
  {
    if rows == [] then []
    else
      var front := InputsOf(rows[..|rows| - 1], inputs[..|rows| - 1], e);
      if rows[|rows| - 1].content.entity == e then front + [inputs[|rows| - 1]] else front
  }

  lemma {:induction false} InputsBehindRows(rows: seq<Row>, inputs: seq<Input>, e: Entity)
    requires |rows| == |inputs|
    requires forall i :: 0 <= i < |rows| ==> WellFormedInput(inputs[i]) && rows[i].content == ContentOf(inputs[i])
    ensures var es, ins := RowsOf(rows, e), InputsOf(rows, inputs, e);
      |ins| == |es| && forall k :: 0 <= k < |es| ==> WellFormedInput(ins[k]) && es[k].content == ContentOf(ins[k])
  {
    hide WellFormedInput, ContentOf;
    if rows != [] {
      InputsBehindRows(rows[..|rows| - 1], inputs[..|rows| - 1], e);
    }
  }

  ghost predicate SameAppends(a: seq<Input>, b: seq<Input>) {
    |a| == |b| && forall k :: 0 <= k < |a| ==> SameAppend(a[k], b[k])
  }

  /** Take any two runs, and an entity of each, with the same last hash. If both verify, the same
      appends were made to them, one by one, in the same order. */
  lemma {:induction false} HeadCommitsToAppends(steps1: seq<Step>, e1: Entity, steps2: seq<Step>, e2: Entity)
    requires WellFormedSteps(steps1) && WellFormedSteps(steps2)
    requires var es, fs := RowsOf(Exec(EMPTY, steps1).rows, e1), RowsOf(Exec(EMPTY, steps2).rows, e2);
      Continuous(es) && Continuous(fs) && HeadOf(es) == HeadOf(fs)
    ensures var t, u := TraceOf(NOTHING, steps1), TraceOf(NOTHING, steps2);
      && |t.state.rows| == |t.inputs| && |u.state.rows| == |u.inputs|
      && SameAppends(InputsOf(t.state.rows, t.inputs, e1), InputsOf(u.state.rows, u.inputs, e2))
  {
    RunKeepsTrace(NOTHING, steps1);
    RunKeepsTrace(NOTHING, steps2);
    HeadCommitsToHistory(steps1, e1, steps2, e2);
    var t, u := TraceOf(NOTHING, steps1), TraceOf(NOTHING, steps2);
    hide Exec, TraceOf, WellFormedSteps, ContentOf, WellFormedInput, SameAppend, RowsOf, InputsOf, Continuous;
    InputsBehindRows(t.state.rows, t.inputs, e1);
    InputsBehindRows(u.state.rows, u.inputs, e2);
    var a, b := InputsOf(t.state.rows, t.inputs, e1), InputsOf(u.state.rows, u.inputs, e2);
    var es := RowsOf(t.state.rows, e1);
    assert es == RowsOf(u.state.rows, e2);
    forall k | 0 <= k < |a|
      ensures SameAppend(a[k], b[k])
    {
      assert es[k].content == ContentOf(a[k]) && es[k].content == ContentOf(b[k]);
      ContentLaw(a[k], b[k]);
    }
  }

  /** Verified or not, for every row on the chain behind a shared head the same append was made in
      both runs. */
  lemma {:induction false} ChainCommitsToAppends(steps1: seq<Step>, e1: Entity, steps2: seq<Step>, e2: Entity, row: Row)
    requires WellFormedSteps(steps1) && WellFormedSteps(steps2)
    requires var h1 := HeadOf(RowsOf(Exec(EMPTY, steps1).rows, e1));
      h1.Some? && h1 == HeadOf(RowsOf(Exec(EMPTY, steps2).rows, e2)) && row in ChainOf(h1.value)
    ensures var t, u := TraceOf(NOTHING, steps1), TraceOf(NOTHING, steps2);
      && |t.state.rows| == |t.inputs| && |u.state.rows| == |u.inputs|
      && exists i: nat, j: nat :: i < |t.inputs| && j < |u.inputs| && t.state.rows[i] == u.state.rows[j] == row
                                  && SameAppend(t.inputs[i], u.inputs[j])
  {
    RunKeepsTrace(NOTHING, steps1);
    RunKeepsTrace(NOTHING, steps2);
    HeadCommitsToChain(steps1, e1, steps2, e2);
    var t, u := TraceOf(NOTHING, steps1), TraceOf(NOTHING, steps2);
    hide Exec, TraceOf, WellFormedSteps, ContentOf, WellFormedInput, SameAppend, ChainOf, Continuous, Subsequence;
    var chain := ChainOf(HeadOf(RowsOf(t.state.rows, e1)).value);
    SubsequenceMembers(chain, RowsOf(t.state.rows, e1));
    SubsequenceMembers(chain, RowsOf(u.state.rows, e2));
    RowsOfMembers(t.state.rows, e1);
    RowsOfMembers(u.state.rows, e2);
    hide RowsOf;
    var i: nat :| i < |t.state.rows| && t.state.rows[i] == row;
    var j: nat :| j < |u.state.rows| && u.state.rows[j] == row;
    ContentLaw(t.inputs[i], u.inputs[j]);
  }

  lemma {:induction false} SubsequenceMembers(sub: seq<Row>, s: seq<Row>)
    requires Subsequence(sub, s)
    ensures forall row :: row in sub ==> row in s
  {
    if sub != [] && s != [] {
      var front, last := s[..|s| - 1], s[|s| - 1];
      assert s == front + [last] && sub == sub[..|sub| - 1] + [sub[|sub| - 1]];
      SubsequenceMembers(if sub[|sub| - 1] == last then sub[..|sub| - 1] else sub, front);
    }
  }

  // ---------- the service ----------

  predicate IsNewest(rows: seq<Row>, e: Entity, i: nat) {
    i < |rows| && rows[i].content.entity == e && forall j :: i < j < |rows| ==> rows[j].content.entity != e
  }

  /** The head of an entity is the hash of its row with no other behind it. */
  lemma {:induction false} HeadIsNewest(rows: seq<Row>, e: Entity, i: nat)
    requires i <= |rows| && forall j :: i <= j < |rows| ==> rows[j].content.entity != e
    requires i > 0 ==> rows[i - 1].content.entity == e
    ensures HeadOf(RowsOf(rows, e)) == if i > 0 then Some(rows[i - 1].hash) else None
  {
    if rows != [] && i < |rows| {
      HeadIsNewest(rows[..|rows| - 1], e, i);
    }
  }

  /** The table behind the service. */
  class ForensicLedger {
    var rows: seq<Row>

    constructor ()
      ensures rows == []
    {
      rows := [];
    }

    /** The first statement of `append`: the entity's newest row, if it has one, by a walk
        back from the newest of all. It is the machine's read, whatever else is pending. */
    method Begin(input: Input) returns (p: Pending)
      ensures p.content == ContentOf(input)
      ensures p.content.correlationId == input.correlationId && p.content.entity == input.entity
      ensures p.content.mutationType == input.mutationType && p.content.actor == input.actor
      ensures forall other :: WellFormedInput(input) && WellFormedInput(other) ==>
        (p.content == ContentOf(other) <==> SameAppend(input, other))
      ensures p.head.None? <==> forall i :: 0 <= i < |rows| ==> rows[i].content.entity != input.entity
      ensures p.head.Some? ==> exists i: nat :: IsNewest(rows, input.entity, i) && rows[i].hash == p.head.value
      ensures forall pending: map<nat, Pending>, caller: nat | caller !in pending ::
        Next(State(rows, pending), ReadHead(caller, input)) == State(rows, pending[caller := p])
    {
      var i := |rows|;
      while i > 0 && rows[i - 1].content.entity != input.entity
        invariant 0 <= i <= |rows|
        invariant forall j :: i <= j < |rows| ==> rows[j].content.entity != input.entity
      {
        i := i - 1;
      }
      HeadIsNewest(rows, input.entity, i);
      forall other | WellFormedInput(input) && WellFormedInput(other)
        ensures ContentOf(input) == ContentOf(other) <==> SameAppend(input, other)
      {
        ContentLaw(input, other);
      }
      hide ContentOf, SameAppend, WellFormedInput;
      assert i > 0 ==> IsNewest(rows, input.entity, i - 1);
      p := Pending(ContentOf(input), if i > 0 then Some(rows[i - 1].hash) else None);
    }

    /** The second statement of `append`. The hash is returned whether or not a row was
        stored. */
    method Finish(p: Pending) returns (hash: LedgerHash)
      modifies this
      ensures rows == InsertRow(old(rows), RowFor(p)) && hash == LedgerHash(p.content, p.head)
    {
      var row := RowFor(p);
      if !HashStored(rows, row.hash) {
        rows := rows + [row];
      }
      return row.hash;
    }

    /** `append` with nothing in between. */
    method AppendNow(input: Input) returns (hash: LedgerHash)
      modifies this
      ensures State(rows, map[]) == Append(State(old(rows), map[]), 0, input)
    {
      var p := Begin(input);
      ghost var none: map<nat, Pending> := map[];
      ghost var mid := Next(State(rows, none), ReadHead(0, input));
      assert 0 !in none && mid == State(rows, none[0 := p]);
      assert mid.pending - {0} == map[];
      hash := Finish(p);
    }

    method VerifyContinuity(e: Entity) returns (ok: bool)
      ensures ok == Continuous(RowsOf(rows, e))
    {
      var es := RowsOf(rows, e);
      var prev: Option<LedgerHash> := None;
      for i := 0 to |es|
        invariant ContinuousFrom(es[i..], prev) == Continuous(es)
      {
        assert es[i..][1..] == es[i + 1..];
        if es[i].previous != prev {
          return false;
        }
        prev := Some(es[i].hash);
      }
      return true;
    }
  }
}
