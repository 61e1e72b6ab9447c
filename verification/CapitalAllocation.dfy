/**
 The greedy capital allocator (src/services/capitalAllocationEngine.ts): opportunities
 are ranked, and one pass hands each of them money until the budget, its category cap
 or its family cap runs out. The pass is a fold over `Books`; the method runs it as the
 source does, with a running balance and two exposure maps.

 Status texts are taken after their trimming and upper-casing and their set lookups.
 */
module CapitalAllocation {
  import opened Common
  import opened Money

  /** A JavaScript number, up to rounding error. */
  datatype Num = Finite(value: real) | NaN | PosInfinity | NegInfinity

  datatype ExecutionStatus =
    AutoBuyReady | BidMonitorReady | ReviewRequired | Blocked | Expired | CapitalLimitSkipped | Unknown

  datatype Policy = Policy(
    policyVersion: string,
    mode: string,
    totalCapitalUsd: real,
    reservePct: real,
    maxPerItemUsd: real,
    maxCategoryExposurePct: real,
    maxFamilyExposurePct: real,
    minBuyAPlusScore: real,
    minBuyAScore: real,
    minBuyBScore: real,
    minConfidenceScore: real,
    requireCapitalSafety: bool,
    requireLiveness: bool,
    requireValidCostBasis: bool)

  datatype Opportunity = Opportunity(
    sourceRecordId: string,
    categoryKey: Option<string>,
    familyKey: Option<string>,
    buyQualified: bool,
    buyDecision: bool,
    executionStatus: ExecutionStatus,
    capitalSafetyPasses: bool,
    livenessPasses: bool,
    costBasisPasses: bool,
    requiredCapitalUsd: Num,
    expectedProfitUsd: Num,
    expectedRoi: Num,
    expectedDaysToSale: Option<real>,
    confidenceScore: Num)

  datatype PolicyError =
    | InvalidPolicyVersion | InvalidMode | InvalidTotalCapital | InvalidReservePct | InvalidMaxPerItem
    | InvalidMaxCategoryExposure | InvalidMaxFamilyExposure | InvalidTierScoreOrder | InvalidMinConfidence

  datatype GovernanceFailure =
    | NotBuyQualified | NotBuyDecision | ExecutionBlocked | ExecutionNotAllocatable
    | CapitalSafetyNotAllocatable | LivenessNotAllocatable | InvalidCostBasis
    | InvalidRequiredCapital | InvalidExpectedProfit | InvalidExpectedRoi | ConfidenceBelowMinimum

  datatype Tier = BuyAPlus | BuyA | BuyB | ReviewAllocated | BidMonitorAllocated | NoCapital | TierBlocked

  datatype ExposureStatus = OK | Limited | Invalid

  function ValidatePolicy(p: Policy): Option<PolicyError> {
    if p.policyVersion == "" then Some(InvalidPolicyVersion)
    else if p.mode != "shadow" && p.mode != "production" then Some(InvalidMode)
    else if p.totalCapitalUsd <= 0.0 then Some(InvalidTotalCapital)
    else if p.reservePct < 0.0 || p.reservePct >= 0.9 then Some(InvalidReservePct)
    else if p.maxPerItemUsd <= 0.0 then Some(InvalidMaxPerItem)
    else if p.maxCategoryExposurePct <= 0.0 || p.maxCategoryExposurePct > 1.0 then Some(InvalidMaxCategoryExposure)
    else if p.maxFamilyExposurePct <= 0.0 || p.maxFamilyExposurePct > 1.0 then Some(InvalidMaxFamilyExposure)
    else if p.minBuyAPlusScore < p.minBuyAScore || p.minBuyAScore < p.minBuyBScore then Some(InvalidTierScoreOrder)
    else if p.minConfidenceScore < 0.0 || p.minConfidenceScore > 1.0 then Some(InvalidMinConfidence)
    else None
  }

  function SafeNumber(n: Num): real {
    if n.Finite? then n.value else 0.0
  }

  predicate Positive(n: Num) {
    n.Finite? && n.value > 0.0
  }

  function GovernanceFailureOf(op: Opportunity, p: Policy): Option<GovernanceFailure> {
    if !op.buyQualified then Some(NotBuyQualified)
    else if !op.buyDecision then Some(NotBuyDecision)
    else if op.executionStatus in {Blocked, Expired, CapitalLimitSkipped} then Some(ExecutionBlocked)
    else if op.executionStatus == Unknown then Some(ExecutionNotAllocatable)
    else if p.requireCapitalSafety && !op.capitalSafetyPasses then Some(CapitalSafetyNotAllocatable)
    else if p.requireLiveness && !op.livenessPasses then Some(LivenessNotAllocatable)
    else if p.requireValidCostBasis && !op.costBasisPasses then Some(InvalidCostBasis)
    else if !Positive(op.requiredCapitalUsd) then Some(InvalidRequiredCapital)
    else if !Positive(op.expectedProfitUsd) then Some(InvalidExpectedProfit)
    else if !Positive(op.expectedRoi) then Some(InvalidExpectedRoi)
    else if !op.confidenceScore.Finite? || op.confidenceScore.value < p.minConfidenceScore then
      Some(ConfidenceBelowMinimum)
    else None
  }

  // ---------- scoring and ranking ----------

  function VelocityFactor(days: Option<real>): real {
    if days.None? || days.value <= 0.0 then 0.50
    else if days.value <= 14.0 then 1.00
    else if days.value <= 30.0 then 0.85
    else if days.value <= 45.0 then 0.70
    else if days.value <= 60.0 then 0.55
    else 0.35
  }

  function ExecutionBoost(status: ExecutionStatus): real {
    match status
    case AutoBuyReady => 1.00
    case BidMonitorReady => 0.90
    case ReviewRequired => 0.70
    case _ => 0.0
  }

  function Round6(x: real): real {
    (x * 1000000.0 + 0.5).Floor as real / 1000000.0
  }

  function AllocationScore(op: Opportunity): real {
    var requiredCapital := MaxR(0.0, SafeNumber(op.requiredCapitalUsd));
    var confidence := MinR(1.0, MaxR(0.0, SafeNumber(op.confidenceScore)));
    var efficiency := if requiredCapital > 0.0 then SafeNumber(op.expectedProfitUsd) / requiredCapital else 0.0;
    Round6(efficiency * 0.42 + SafeNumber(op.expectedRoi) * 0.28 + VelocityFactor(op.expectedDaysToSale) * 0.13
           + confidence * 0.12 + ExecutionBoost(op.executionStatus) * 0.05)
  }

  /** Sign of a difference of reals. */
  function Sign(x: real): int {
    if x < 0.0 then -1 else if x > 0.0 then 1 else 0
  }

  /** `None` when `b !== a` is false; otherwise the sign of `b - a`, where `NaN` counts
      as a tie. */
  function Descending(a: Num, b: Num): Option<int> {
    if a.NaN? || b.NaN? then Some(0)
    else if a == b then None
    else if a.PosInfinity? || b.NegInfinity? then Some(-1)
    else if a.NegInfinity? || b.PosInfinity? then Some(1)
    else Some(Sign(b.value - a.value))
  }

  datatype Scored = Scored(op: Opportunity, allocationScore: real)

  function ScoreAll(ops: seq<Opportunity>): (r: seq<Scored>)
    ensures |r| == |ops| && forall i :: 0 <= i < |ops| ==> r[i].op == ops[i]
  {
    if ops == [] then [] else [Scored(ops[0], AllocationScore(ops[0]))] + ScoreAll(ops[1..])
  }

  /** Negative when `a` ranks above `b`. `collation` orders ids as `localeCompare` does. */
  function Compare(collation: string -> real, a: Scored, b: Scored): int {
    if b.allocationScore != a.allocationScore then Sign(b.allocationScore - a.allocationScore)
    else if Descending(a.op.expectedProfitUsd, b.op.expectedProfitUsd).Some? then
      Descending(a.op.expectedProfitUsd, b.op.expectedProfitUsd).value
    else if Descending(a.op.expectedRoi, b.op.expectedRoi).Some? then
      Descending(a.op.expectedRoi, b.op.expectedRoi).value
    else Sign(collation(a.op.sourceRecordId) - collation(b.op.sourceRecordId))
  }

  function Insert(collation: string -> real, x: Scored, s: seq<Scored>): (r: seq<Scored>)
    ensures |r| == |s| + 1
  {
    if s == [] || Compare(collation, x, s[0]) <= 0 then [x] + s
    else [s[0]] + Insert(collation, x, s[1..])
  }

  /** The stable sort by `Compare`. */
  function Ranked(collation: string -> real, ops: seq<Scored>): (r: seq<Scored>)
    ensures |r| == |ops|
  {
    if ops == [] then [] else Insert(collation, ops[0], Ranked(collation, ops[1..]))
  }

  // ---------- the pass ----------

  function ShareOf(amount: real, pct: real): real {
    Round2(amount * pct)
  }

  function Reserve(p: Policy): real {
    ShareOf(p.totalCapitalUsd, p.reservePct)
  }

  function Deployable(p: Policy): real {
    Round2(p.totalCapitalUsd - Reserve(p))
  }

  /** What the pass works with: the policy and the three amounts derived from it. */
  datatype Terms = Terms(policy: Policy, deployable: real, categoryLimit: real, familyLimit: real)

  function TermsOf(p: Policy): Terms {
    Terms(p, Deployable(p), ShareOf(Deployable(p), p.maxCategoryExposurePct),
          ShareOf(Deployable(p), p.maxFamilyExposurePct))
  }

  function KeyOf(key: Option<string>): string {
    if key.None? || key.value == "" then "unknown" else key.value
  }

  function TierForScore(score: real, p: Policy, status: ExecutionStatus): Tier {
    if score < p.minBuyBScore then NoCapital
    else if status == ReviewRequired then ReviewAllocated
    else if status == BidMonitorReady then BidMonitorAllocated
    else if score >= p.minBuyAPlusScore then BuyAPlus
    else if score >= p.minBuyAScore then BuyA
    else BuyB
  }

  datatype Books = Books(remaining: real, category: map<string, real>, family: map<string, real>)

  datatype Line = Line(scored: Scored, capital: real, tier: Tier, exposure: ExposureStatus)

  function Used(m: map<string, real>, key: string): real {
    if key in m then m[key] else 0.0
  }

  function CategoryOf(sc: Scored): string {
    KeyOf(sc.op.categoryKey)
  }

  function FamilyOf(sc: Scored): string {
    KeyOf(sc.op.familyKey)
  }

  function Start(t: Terms): Books {
    Books(t.deployable, map[], map[])
  }

  /** What the item asks for, never more than the per-item maximum. */
  function Ask(t: Terms, sc: Scored): real {
    MinR(t.policy.maxPerItemUsd, SafeNumber(sc.op.requiredCapitalUsd))
  }

  function Allowed(t: Terms, b: Books, sc: Scored): real {
    Round2(MinR(MinR(MinR(Ask(t, sc), b.remaining),
                     MaxR(0.0, t.categoryLimit - Used(b.category, CategoryOf(sc)))),
                MaxR(0.0, t.familyLimit - Used(b.family, FamilyOf(sc)))))
  }

  function Decide(t: Terms, b: Books, sc: Scored): Line {
    if GovernanceFailureOf(sc.op, t.policy).Some? then Line(sc, 0.0, TierBlocked, Invalid)
    else if Allowed(t, b, sc) <= 0.0 then Line(sc, 0.0, NoCapital, Limited)
    else
      var tier := TierForScore(sc.allocationScore, t.policy, sc.op.executionStatus);
      if tier == NoCapital then Line(sc, 0.0, NoCapital, OK) else Line(sc, Allowed(t, b, sc), tier, OK)
  }

  function Post(b: Books, line: Line): Books {
    if line.capital == 0.0 then b
    else
      var c, f := CategoryOf(line.scored), FamilyOf(line.scored);
      Books(Round2(b.remaining - line.capital),
            b.category[c := Round2(Used(b.category, c) + line.capital)],
            b.family[f := Round2(Used(b.family, f) + line.capital)])
  }

  function Lines(t: Terms, b: Books, ops: seq<Scored>): (lines: seq<Line>)
    ensures |lines| == |ops|
    ensures forall i :: 0 <= i < |ops| ==> lines[i].scored == ops[i]
    decreases |ops|
  {
    if ops == [] then []
    else
      var line := Decide(t, b, ops[0]);
      [line] + Lines(t, Post(b, line), ops[1..])
  }

  function PostAll(b: Books, lines: seq<Line>): Books {
    if lines == [] then b else Post(PostAll(b, lines[..|lines| - 1]), lines[|lines| - 1])
  }

  function Allocate(collation: string -> real, p: Policy, ops: seq<Opportunity>): seq<Line> {
    Lines(TermsOf(p), Start(TermsOf(p)), Ranked(collation, ScoreAll(ops)))
  }

  // ---------- conservation and caps ----------

  ghost function Total(lines: seq<Line>): real {
    if lines == [] then 0.0 else Total(lines[..|lines| - 1]) + lines[|lines| - 1].capital
  }

  ghost function CategoryTotal(lines: seq<Line>, key: string): real {
    if lines == [] then 0.0
    else
      var last := lines[|lines| - 1];
      CategoryTotal(lines[..|lines| - 1], key) + if CategoryOf(last.scored) == key then last.capital else 0.0
  }

  ghost function FamilyTotal(lines: seq<Line>, key: string): real {
    if lines == [] then 0.0
    else
      var last := lines[|lines| - 1];
      FamilyTotal(lines[..|lines| - 1], key) + if FamilyOf(last.scored) == key then last.capital else 0.0
  }

  ghost predicate WithinLimit(m: map<string, real>, limit: real) {
    forall k :: WholeCents(Used(m, k)) && 0.0 <= Used(m, k) <= limit
  }

  ghost predicate CategoryAgrees(m: map<string, real>, lines: seq<Line>) {
    forall k :: Used(m, k) == CategoryTotal(lines, k)
  }

  ghost predicate FamilyAgrees(m: map<string, real>, lines: seq<Line>) {
    forall k :: Used(m, k) == FamilyTotal(lines, k)
  }

  /** The books agree with the lines written so far, and nothing is overdrawn. */
  ghost predicate Balanced(t: Terms, b: Books, lines: seq<Line>) {
    && WholeCents(b.remaining) && b.remaining >= 0.0
    && b.remaining + Total(lines) == t.deployable
    && CategoryAgrees(b.category, lines)
    && FamilyAgrees(b.family, lines)
    && WithinLimit(b.category, t.categoryLimit)
    && WithinLimit(b.family, t.familyLimit)
  }

  /** Whole-cent, non-negative terms: all the pass relies on. */
  ghost predicate ValidTerms(t: Terms) {
    && WholeCents(t.deployable) && t.deployable >= 0.0
    && WholeCents(t.categoryLimit) && t.categoryLimit >= 0.0
    && WholeCents(t.familyLimit) && t.familyLimit >= 0.0
    && t.policy.maxPerItemUsd > 0.0
  }

  lemma {:induction false} ShareBelowNineTenths(total: real, pct: real)
    requires total >= 0.0 && 0.0 <= pct <= 0.9
    ensures ShareOf(total, pct) <= 0.9 * total + 0.005
  {
    ShareAtMost(total, pct, 0.9);
    RoundIsNear(total * pct);
  }

  /** A reserve below nine tenths leaves at least zero cents, even after rounding. */
  lemma {:induction false} DeployableNotNegative(p: Policy)
    requires ValidatePolicy(p).None?
    ensures WholeCents(Deployable(p)) && Deployable(p) >= 0.0
  {
    hide ShareOf;
    ShareBelowNineTenths(p.totalCapitalUsd, p.reservePct);
    RoundIsWhole(p.totalCapitalUsd - Reserve(p));
    assert Cents(p.totalCapitalUsd - Reserve(p)) >= 0;
  }

  lemma {:induction false} LimitIsWhole(d: real, pct: real)
    requires WholeCents(d) && d >= 0.0 && 0.0 <= pct <= 1.0
    ensures WholeCents(ShareOf(d, pct)) && 0.0 <= ShareOf(d, pct) <= d
  {
    ShareAtMost(d, pct, 1.0);
    var share := d * pct;
    RoundIsWhole(share);
    RoundMonotone(share, d);
    RoundMonotone(0.0, share);
  }

  /** A policy that passes validation gives such terms, with no cap above the budget. */
  lemma {:induction false} TermsAreValid(p: Policy)
    requires ValidatePolicy(p).None?
    ensures ValidTerms(TermsOf(p))
    ensures TermsOf(p).categoryLimit <= TermsOf(p).deployable && TermsOf(p).familyLimit <= TermsOf(p).deployable
  {
    DeployableNotNegative(p);
    LimitIsWhole(Deployable(p), p.maxCategoryExposurePct);
    LimitIsWhole(Deployable(p), p.maxFamilyExposurePct);
  }

  /** What `Allowed` comes to: the rounded ask, or one of three whole-cent balances. */
  lemma {:induction false} AllowedIs(t: Terms, b: Books, sc: Scored)
    requires ValidTerms(t)
    requires WholeCents(b.remaining) && b.remaining >= 0.0
    requires WithinLimit(b.category, t.categoryLimit) && WithinLimit(b.family, t.familyLimit)
    ensures var c := t.categoryLimit - Used(b.category, CategoryOf(sc));
      var f := t.familyLimit - Used(b.family, FamilyOf(sc));
      && Allowed(t, b, sc) == MinR(MinR(MinR(Round2(Ask(t, sc)), b.remaining), c), f)
      && WholeCents(Allowed(t, b, sc))
      && WholeCents(c) && WholeCents(f) && c >= 0.0 && f >= 0.0
  {
    var c := t.categoryLimit - Used(b.category, CategoryOf(sc));
    var f := t.familyLimit - Used(b.family, FamilyOf(sc));
    WholeSum(t.categoryLimit, Used(b.category, CategoryOf(sc)));
    WholeSum(t.familyLimit, Used(b.family, FamilyOf(sc)));
    RoundMin(Ask(t, sc), b.remaining);
    RoundMin(MinR(Ask(t, sc), b.remaining), c);
    RoundMin(MinR(MinR(Ask(t, sc), b.remaining), c), f);
    RoundIsWhole(MinR(MinR(MinR(Ask(t, sc), b.remaining), c), f));
  }

  lemma {:induction false} DecideIsWhole(t: Terms, b: Books, sc: Scored)
    requires ValidTerms(t)
    requires WholeCents(b.remaining) && b.remaining >= 0.0
    requires WithinLimit(b.category, t.categoryLimit) && WithinLimit(b.family, t.familyLimit)
    ensures Decide(t, b, sc).scored == sc
    ensures var capital := Decide(t, b, sc).capital;
      && WholeCents(capital) && 0.0 <= capital <= b.remaining
      && Used(b.category, CategoryOf(sc)) + capital <= t.categoryLimit
      && Used(b.family, FamilyOf(sc)) + capital <= t.familyLimit
  {
    AllowedIs(t, b, sc);
  }

  /** Posting a decision never has to round. */
  lemma {:induction false} PostIsExact(t: Terms, b: Books, sc: Scored)
    requires ValidTerms(t)
    requires WholeCents(b.remaining) && b.remaining >= 0.0
    requires WithinLimit(b.category, t.categoryLimit) && WithinLimit(b.family, t.familyLimit)
    ensures var line := Decide(t, b, sc);
      line.capital != 0.0 ==>
        Post(b, line) == Books(b.remaining - line.capital,
                               Entered(b.category, CategoryOf(sc), line.capital),
                               Entered(b.family, FamilyOf(sc), line.capital))
  {
    DecideIsWhole(t, b, sc);
    var capital := Decide(t, b, sc).capital;
    WholeSum(b.remaining, capital);
    WholeSum(Used(b.category, CategoryOf(sc)), capital);
    WholeSum(Used(b.family, FamilyOf(sc)), capital);
  }

  lemma {:induction false} PostNothing(b: Books, line: Line)
    requires line.capital == 0.0
    ensures Post(b, line) == b
  {}

  function Entered(m: map<string, real>, key: string, amount: real): map<string, real> {
    m[key := Used(m, key) + amount]
  }

  lemma {:induction false} EntryKeepsLimit(m: map<string, real>, key: string, amount: real, limit: real)
    requires WithinLimit(m, limit) && WholeCents(amount) && 0.0 <= amount && Used(m, key) + amount <= limit
    ensures WithinLimit(Entered(m, key, amount), limit)
  {
    WholeSum(Used(m, key), amount);
    forall k
      ensures WholeCents(Used(Entered(m, key, amount), k)) && 0.0 <= Used(Entered(m, key, amount), k) <= limit
    {
      assert WholeCents(Used(m, k));
    }
  }

  lemma {:induction false} CategoryEntry(m: map<string, real>, lines: seq<Line>, line: Line)
    requires CategoryAgrees(m, lines)
    ensures CategoryAgrees(Entered(m, CategoryOf(line.scored), line.capital), lines + [line])
    ensures line.capital == 0.0 ==> CategoryAgrees(m, lines + [line])
  {
    assert (lines + [line])[..|lines|] == lines;
  }

  lemma {:induction false} FamilyEntry(m: map<string, real>, lines: seq<Line>, line: Line)
    requires FamilyAgrees(m, lines)
    ensures FamilyAgrees(Entered(m, FamilyOf(line.scored), line.capital), lines + [line])
    ensures line.capital == 0.0 ==> FamilyAgrees(m, lines + [line])
  {
    assert (lines + [line])[..|lines|] == lines;
  }

  lemma {:induction false} TotalGrows(lines: seq<Line>, line: Line)
    ensures Total(lines + [line]) == Total(lines) + line.capital
  {
    assert (lines + [line])[..|lines|] == lines;
  }

  lemma {:induction false} DecideKeepsBalance(t: Terms, b: Books, lines: seq<Line>, sc: Scored)
    requires ValidTerms(t) && Balanced(t, b, lines)
    ensures var line := Decide(t, b, sc);
      Balanced(t, Post(b, line), lines + [line])
  {
    hide Decide, WithinLimit, WholeCents, Round2, CategoryAgrees, FamilyAgrees, Total;
    var line := Decide(t, b, sc);
    DecideIsWhole(t, b, sc);
    TotalGrows(lines, line);
    CategoryEntry(b.category, lines, line);
    FamilyEntry(b.family, lines, line);
    if line.capital == 0.0 {
      PostNothing(b, line);
    } else {
      PostIsExact(t, b, sc);
      hide Post;
      WholeSum(b.remaining, line.capital);
      EntryKeepsLimit(b.category, CategoryOf(sc), line.capital, t.categoryLimit);
      EntryKeepsLimit(b.family, FamilyOf(sc), line.capital, t.familyLimit);
    }
  }

  lemma {:induction false} PostAllFront(b: Books, line: Line, rest: seq<Line>)
    ensures PostAll(b, [line] + rest) == PostAll(Post(b, line), rest)
  {
    if rest == [] {
      assert [line] + rest == [line];
    } else {
      var all := [line] + rest;
      assert all[..|all| - 1] == [line] + rest[..|rest| - 1];
      PostAllFront(b, line, rest[..|rest| - 1]);
    }
  }

  /** Every line is decided on the books left by the lines above it. */
  lemma {:induction false} LineAt(t: Terms, b: Books, ops: seq<Scored>, i: nat)
    requires i < |ops|
    ensures Lines(t, b, ops)[i] == Decide(t, PostAll(b, Lines(t, b, ops)[..i]), ops[i])
    decreases i
  {
    if i > 0 {
      var line := Decide(t, b, ops[0]);
      var rest := Lines(t, Post(b, line), ops[1..]);
      LineAt(t, Post(b, line), ops[1..], i - 1);
      assert Lines(t, b, ops)[..i] == [line] + rest[..i - 1];
      PostAllFront(b, line, rest[..i - 1]);
    }
  }

  /** The books after some lines, checked against those lines. */
  ghost predicate Solvent(t: Terms, lines: seq<Line>) {
    Balanced(t, PostAll(Start(t), lines), lines)
  }

  lemma {:induction false} SolventGrows(t: Terms, done: seq<Line>, sc: Scored)
    requires ValidTerms(t) && Solvent(t, done)
    ensures Solvent(t, done + [Decide(t, PostAll(Start(t), done), sc)])
  {
    var b := PostAll(Start(t), done);
    DecideKeepsBalance(t, b, done, sc);
    PostAllLast(Start(t), done, Decide(t, b, sc));
  }

  /** Through every iteration, in any order of the opportunities: the balance is never
      negative, balance plus allocations is the deployable capital, every exposure entry
      is the sum of its items' allocations, and none exceeds its limit. */
  lemma {:induction false} ConservationAndCaps(t: Terms, ops: seq<Scored>, i: nat)
    requires ValidTerms(t) && i <= |ops|
    ensures Solvent(t, Lines(t, Start(t), ops)[..i])
  {
    hide Solvent, Decide;
    if i == 0 {
      StartIsBalanced(t);
    } else {
      var lines := Lines(t, Start(t), ops);
      ConservationAndCaps(t, ops, i - 1);
      LineAt(t, Start(t), ops, i - 1);
      SolventGrows(t, lines[..i - 1], ops[i - 1]);
      assert lines[..i] == lines[..i - 1] + [lines[i - 1]];
    }
  }

  lemma {:induction false} StartIsBalanced(t: Terms)
    requires ValidTerms(t)
    ensures Solvent(t, [])
  {}

  lemma {:induction false} PostAllLast(b: Books, lines: seq<Line>, line: Line)
    ensures PostAll(b, lines + [line]) == Post(PostAll(b, lines), line)
  {
    assert (lines + [line])[..|lines|] == lines;
  }

  // ---------- maximality ----------

  function BooksAfter(t: Terms, ops: seq<Scored>, i: nat): Books
    requires i <= |ops|
  {
    PostAll(Start(t), Lines(t, Start(t), ops)[..i])
  }

  ghost predicate Spends(b: Books, c: Books) {
    && c.remaining <= b.remaining
    && (forall k :: Used(b.category, k) <= Used(c.category, k))
    && (forall k :: Used(b.family, k) <= Used(c.family, k))
  }

  lemma {:induction false} NextLine(t: Terms, ops: seq<Scored>, i: nat)
    requires i < |ops|
    ensures Lines(t, Start(t), ops)[i] == Decide(t, BooksAfter(t, ops, i), ops[i])
    ensures Lines(t, Start(t), ops)[..i + 1] == Lines(t, Start(t), ops)[..i] + [Lines(t, Start(t), ops)[i]]
    ensures BooksAfter(t, ops, i + 1) == Post(BooksAfter(t, ops, i), Lines(t, Start(t), ops)[i])
  {
    hide Decide, Post, Lines, PostAll;
    var lines := Lines(t, Start(t), ops);
    LineAt(t, Start(t), ops, i);
    assert lines[..i + 1] == lines[..i] + [lines[i]];
    PostAllLast(Start(t), lines[..i], lines[i]);
  }

  lemma {:induction false} OneLineSpends(t: Terms, ops: seq<Scored>, i: nat)
    requires ValidTerms(t) && i < |ops|
    ensures Lines(t, Start(t), ops)[i] == Decide(t, BooksAfter(t, ops, i), ops[i])
    ensures Lines(t, Start(t), ops)[i].capital >= 0.0
    ensures Solvent(t, Lines(t, Start(t), ops)[..i])
    ensures Spends(BooksAfter(t, ops, i), BooksAfter(t, ops, i + 1))
  {
    ConservationAndCaps(t, ops, i);
    NextLine(t, ops, i);
    DecisionSpends(t, BooksAfter(t, ops, i), ops[i]);
  }

  lemma {:induction false} DecisionSpends(t: Terms, b: Books, sc: Scored)
    requires ValidTerms(t)
    requires WholeCents(b.remaining) && b.remaining >= 0.0
    requires WithinLimit(b.category, t.categoryLimit) && WithinLimit(b.family, t.familyLimit)
    ensures Spends(b, Post(b, Decide(t, b, sc))) && Decide(t, b, sc).capital >= 0.0
  {
    hide Decide, Post;
    DecideIsWhole(t, b, sc);
    PostIsExact(t, b, sc);
    var line := Decide(t, b, sc);
    if line.capital == 0.0 {
      PostNothing(b, line);
    }
  }

  lemma {:induction false} SpendsNothing(b: Books)
    ensures Spends(b, b)
  {}

  lemma {:induction false} SpendsTwice(a: Books, b: Books, c: Books)
    requires Spends(a, b) && Spends(b, c)
    ensures Spends(a, c)
  {
    forall k
      ensures Used(a.category, k) <= Used(c.category, k) && Used(a.family, k) <= Used(c.family, k)
    {
      assert Used(a.category, k) <= Used(b.category, k) <= Used(c.category, k);
      assert Used(a.family, k) <= Used(b.family, k) <= Used(c.family, k);
    }
  }

  lemma {:induction false} BooksOnlySpend(t: Terms, ops: seq<Scored>, i: nat, j: nat)
    requires ValidTerms(t) && i <= j <= |ops|
    ensures Spends(BooksAfter(t, ops, i), BooksAfter(t, ops, j))
    decreases j
  {
    hide Spends, BooksAfter, Solvent, Decide;
    if i == j {
      SpendsNothing(BooksAfter(t, ops, i));
    } else {
      BooksOnlySpend(t, ops, i, j - 1);
      OneLineSpends(t, ops, j - 1);
      SpendsTwice(BooksAfter(t, ops, i), BooksAfter(t, ops, j - 1), BooksAfter(t, ops, j));
    }
  }

  /** Budget, category cap or family cap of `op` used up to the cent. */
  predicate Exhausted(t: Terms, b: Books, sc: Scored) {
    || b.remaining == 0.0
    || Used(b.category, CategoryOf(sc)) == t.categoryLimit
    || Used(b.family, FamilyOf(sc)) == t.familyLimit
  }

  lemma {:induction false} ExhaustionLasts(t: Terms, ops: seq<Scored>, i: nat, j: nat, sc: Scored)
    requires ValidTerms(t) && i <= j <= |ops|
    requires Exhausted(t, BooksAfter(t, ops, i), sc)
    ensures Exhausted(t, BooksAfter(t, ops, j), sc)
  {
    BooksOnlySpend(t, ops, i, j);
    ConservationAndCaps(t, ops, j);
  }

  predicate Eligible(t: Terms, sc: Scored) {
    GovernanceFailureOf(sc.op, t.policy).None? && sc.allocationScore >= t.policy.minBuyBScore
  }

  lemma {:induction false} FullOrExhausted(t: Terms, b: Books, sc: Scored)
    requires ValidTerms(t) && Eligible(t, sc)
    requires WholeCents(b.remaining) && b.remaining >= 0.0
    requires WithinLimit(b.category, t.categoryLimit) && WithinLimit(b.family, t.familyLimit)
    ensures var line := Decide(t, b, sc);
      line.capital == Round2(Ask(t, sc)) || Exhausted(t, Post(b, line), sc)
  {
    AllowedIs(t, b, sc);
    var line := Decide(t, b, sc);
    var c, f := Used(b.category, CategoryOf(sc)), Used(b.family, FamilyOf(sc));
    RoundMonotone(0.0, Ask(t, sc));
    WholeSum(b.remaining, line.capital);
    WholeSum(c, line.capital);
    WholeSum(f, line.capital);
  }

  /** An opportunity that passes governance and scores high enough gets exactly its rounded
      ask, unless at the end its budget, category cap or family cap is gone to the cent. */
  lemma {:induction false} GreedyIsMaximal(t: Terms, ops: seq<Scored>, i: nat)
    requires ValidTerms(t) && i < |ops| && Eligible(t, ops[i])
    ensures Lines(t, Start(t), ops)[i].capital == Round2(Ask(t, ops[i]))
         || Exhausted(t, BooksAfter(t, ops, |ops|), ops[i])
  {
    NextLine(t, ops, i);
    ConservationAndCaps(t, ops, i);
    hide Decide, Post;
    FullOrExhausted(t, BooksAfter(t, ops, i), ops[i]);
    if Exhausted(t, BooksAfter(t, ops, i + 1), ops[i]) {
      ExhaustionLasts(t, ops, i + 1, |ops|, ops[i]);
    }
  }

  /** Once the budget or a cap is used up, nothing later under it is funded. */
  lemma {:induction false} NothingAfterExhaustion(t: Terms, ops: seq<Scored>, i: nat, j: nat)
    requires ValidTerms(t) && i <= j < |ops|
    requires Exhausted(t, BooksAfter(t, ops, i), ops[j])
    ensures Lines(t, Start(t), ops)[j].capital == 0.0
  {
    ExhaustionLasts(t, ops, i, j, ops[j]);
    OneLineSpends(t, ops, j);
    DecideIsWhole(t, BooksAfter(t, ops, j), ops[j]);
  }

  /** Blocked and low-scoring opportunities never get money, and money always comes with
      a funded tier. */
  lemma {:induction false} FundedIffTier(t: Terms, ops: seq<Scored>, i: nat)
    requires ValidTerms(t) && i < |ops|
    ensures var line := Lines(t, Start(t), ops)[i];
      && line.capital >= 0.0
      && (line.capital > 0.0 <==> line.tier !in {NoCapital, TierBlocked})
      && (line.capital > 0.0 ==> Eligible(t, ops[i]) && line.capital <= Round2(Ask(t, ops[i])))
  {
    OneLineSpends(t, ops, i);
    AllowedIs(t, BooksAfter(t, ops, i), ops[i]);
    DecideIsWhole(t, BooksAfter(t, ops, i), ops[i]);
  }

  // ---------- irrelevance of unfunded opportunities ----------

  function Select<T>(s: seq<T>, keep: seq<bool>): seq<T>
    requires |s| == |keep|
  {
    if s == [] then [] else (if keep[0] then [s[0]] else []) + Select(s[1..], keep[1..])
  }

  /** Striking out any of the unfunded lines changes no other line, and not the books. */
  lemma {:induction false} UnfundedAreIrrelevant(t: Terms, b: Books, ops: seq<Scored>, keep: seq<bool>)
    requires |keep| == |ops|
    requires forall i :: 0 <= i < |ops| && !keep[i] ==> Lines(t, b, ops)[i].capital == 0.0
    ensures Lines(t, b, Select(ops, keep)) == Select(Lines(t, b, ops), keep)
    ensures PostAll(b, Lines(t, b, Select(ops, keep))) == PostAll(b, Lines(t, b, ops))
    decreases |ops|
  {
    if ops != [] {
      var line := Decide(t, b, ops[0]);
      var b1 := Post(b, line);
      var lines, rest := Lines(t, b, ops), Lines(t, b1, ops[1..]);
      assert lines == [line] + rest;
      forall i | 0 <= i < |ops| - 1 && !keep[1..][i]
        ensures rest[i].capital == 0.0
      {
        assert rest[i] == lines[i + 1];
      }
      UnfundedAreIrrelevant(t, b1, ops[1..], keep[1..]);
      PostAllFront(b, line, rest);
      assert lines[1..] == rest;
      if keep[0] {
        var kept := Select(ops[1..], keep[1..]);
        assert ([ops[0]] + kept)[1..] == kept;
        PostAllFront(b, line, Lines(t, b1, kept));
      } else {
        assert Select(ops, keep) == Select(ops[1..], keep[1..]);
        assert lines[0].capital == 0.0;
      }
    }
  }

  /** A longer ranking decides its first opportunities as the shorter one does. */
  lemma {:induction false} LowerRankedAreIrrelevant(t: Terms, b: Books, above: seq<Scored>, below: seq<Scored>)
    ensures Lines(t, b, above + below)[..|above|] == Lines(t, b, above)
    decreases |above|
  {
    if above != [] {
      var line := Decide(t, b, above[0]);
      assert (above + below)[1..] == above[1..] + below;
      LowerRankedAreIrrelevant(t, Post(b, line), above[1..], below);
    }
  }

  // ---------- the ranking ----------

  predicate Comparable(sc: Scored) {
    !sc.op.expectedProfitUsd.NaN? && !sc.op.expectedRoi.NaN?
  }

  ghost predicate AllComparable(ops: seq<Scored>) {
    forall i :: 0 <= i < |ops| ==> Comparable(ops[i])
  }

  /** Without NaN, infinities included, the comparison is a total preorder, and ties are exactly equal keys. */
  lemma {:induction false} CompareIsTotalPreorder(collation: string -> real, a: Scored, b: Scored, c: Scored)
    requires Comparable(a) && Comparable(b) && Comparable(c)
    ensures Compare(collation, a, b) == -Compare(collation, b, a)
    ensures Compare(collation, a, b) <= 0 && Compare(collation, b, c) <= 0 ==> Compare(collation, a, c) <= 0
    ensures Compare(collation, a, b) < 0 && Compare(collation, b, c) <= 0 ==> Compare(collation, a, c) < 0
    ensures Compare(collation, a, b) <= 0 && Compare(collation, b, c) < 0 ==> Compare(collation, a, c) < 0
    ensures Compare(collation, a, b) == 0 <==>
      && a.allocationScore == b.allocationScore && a.op.expectedProfitUsd == b.op.expectedProfitUsd
      && a.op.expectedRoi == b.op.expectedRoi && collation(a.op.sourceRecordId) == collation(b.op.sourceRecordId)
  {
  }

  /** `x` ranks no lower than anything in `s`. */
  ghost predicate Heads(collation: string -> real, x: Scored, s: seq<Scored>) {
    forall i :: 0 <= i < |s| ==> Compare(collation, x, s[i]) <= 0
  }

  ghost predicate InOrder(collation: string -> real, s: seq<Scored>) {
    s == [] || (Heads(collation, s[0], s[1..]) && InOrder(collation, s[1..]))
  }

  lemma {:induction false} InsertMembers(collation: string -> real, x: Scored, s: seq<Scored>)
    ensures multiset(Insert(collation, x, s)) == multiset(s) + multiset{x}
    ensures forall y :: y in Insert(collation, x, s) <==> y == x || y in s
  {
    if s != [] && Compare(collation, x, s[0]) > 0 {
      InsertMembers(collation, x, s[1..]);
      assert s == [s[0]] + s[1..];
    }
    assert forall y :: y in Insert(collation, x, s) <==> y in multiset(Insert(collation, x, s));
  }

  lemma {:induction false} HeadsAll(collation: string -> real, x: Scored, s: seq<Scored>)
    requires s != [] && Comparable(x) && AllComparable(s)
    requires Compare(collation, x, s[0]) <= 0 && Heads(collation, s[0], s[1..])
    ensures Heads(collation, x, s)
  {
    forall i | 0 < i < |s|
      ensures Compare(collation, x, s[i]) <= 0
    {
      assert s[i] == s[1..][i - 1];
      CompareIsTotalPreorder(collation, x, s[0], s[i]);
    }
  }

  lemma {:induction false} InsertKeepsOrder(collation: string -> real, x: Scored, s: seq<Scored>)
    requires Comparable(x) && AllComparable(s) && InOrder(collation, s)
    ensures InOrder(collation, Insert(collation, x, s)) && AllComparable(Insert(collation, x, s))
  {
    InsertMembers(collation, x, s);
    if s == [] {
    } else if Compare(collation, x, s[0]) <= 0 {
      HeadsAll(collation, x, s);
      assert ([x] + s)[1..] == s;
    } else {
      var r := Insert(collation, x, s[1..]);
      InsertKeepsOrder(collation, x, s[1..]);
      InsertMembers(collation, x, s[1..]);
      CompareIsTotalPreorder(collation, x, s[0], s[0]);
      forall i | 0 <= i < |r|
        ensures Compare(collation, s[0], r[i]) <= 0
      {
        assert r[i] in r;
        if r[i] != x {
          var j :| 0 <= j < |s[1..]| && s[1..][j] == r[i];
        }
      }
      assert ([s[0]] + r)[1..] == r;
    }
  }

  lemma {:induction false} RankedIsSorted(collation: string -> real, ops: seq<Scored>)
    requires AllComparable(ops)
    ensures InOrder(collation, Ranked(collation, ops)) && AllComparable(Ranked(collation, ops))
    ensures multiset(Ranked(collation, ops)) == multiset(ops)
  {
    if ops != [] {
      RankedIsSorted(collation, ops[1..]);
      InsertKeepsOrder(collation, ops[0], Ranked(collation, ops[1..]));
      InsertMembers(collation, ops[0], Ranked(collation, ops[1..]));
      assert ops == [ops[0]] + ops[1..];
    }
  }

  /** No two of the opportunities have ids that collate alike. */
  ghost predicate DistinctIds(collation: string -> real, ops: multiset<Scored>) {
    && (forall a :: a in ops ==> ops[a] == 1)
    && (forall a, b :: a in ops && b in ops && a != b ==>
          collation(a.op.sourceRecordId) != collation(b.op.sourceRecordId))
  }

  lemma {:induction false} DistinctTail(collation: string -> real, s: seq<Scored>)
    requires s != [] && DistinctIds(collation, multiset(s))
    ensures DistinctIds(collation, multiset(s[1..]))
  {
    var m, tail := multiset(s), multiset(s[1..]);
    TailBag(s);
    forall a | a in tail
      ensures a in m && tail[a] == 1
    {
      assert m[a] == multiset{s[0]}[a] + tail[a];
    }
  }

  lemma {:induction false} TailBag<T>(s: seq<T>)
    requires s != []
    ensures multiset(s) == multiset{s[0]} + multiset(s[1..])
  {
    assert s == [s[0]] + s[1..];
  }

  lemma {:induction false} SameBagSameLength<T>(s: seq<T>, t: seq<T>)
    requires multiset(s) == multiset(t)
    ensures |s| == |t|
  {
    assert |s| == |multiset(s)| == |multiset(t)| == |t|;
  }

  lemma {:induction false} SortedIsUnique(collation: string -> real, s: seq<Scored>, t: seq<Scored>)
    requires AllComparable(s) && AllComparable(t) && multiset(s) == multiset(t)
    requires InOrder(collation, s) && InOrder(collation, t) && DistinctIds(collation, multiset(s))
    ensures s == t
  {
    hide Compare, DistinctIds;
    SameBagSameLength(s, t);
    if s != [] {
      SameHead(collation, s, t);
      DistinctTail(collation, s);
      TailBag(s);
      TailBag(t);
      SameBagAfter(s[0], s[1..], t[1..]);
      SortedIsUnique(collation, s[1..], t[1..]);
      assert s == [s[0]] + s[1..] && t == [t[0]] + t[1..];
    }
  }

  lemma {:induction false} SameHead(collation: string -> real, s: seq<Scored>, t: seq<Scored>)
    requires s != [] && t != [] && AllComparable(s) && AllComparable(t) && multiset(s) == multiset(t)
    requires InOrder(collation, s) && InOrder(collation, t) && DistinctIds(collation, multiset(s))
    ensures s[0] == t[0]
  {
    assert t[0] in multiset(s) && s[0] in multiset(t);
    var i :| 0 <= i < |s| && s[i] == t[0];
    var j :| 0 <= j < |t| && t[j] == s[0];
    if i > 0 && j > 0 {
      assert s[i] == s[1..][i - 1] && t[j] == t[1..][j - 1];
      CompareIsTotalPreorder(collation, s[0], t[0], s[0]);
      assert Compare(collation, s[0], t[0]) == 0;
    }
  }

  lemma {:induction false} ScoreBag(x: Opportunity, rest: seq<Opportunity>)
    ensures multiset(ScoreAll([x] + rest)) == multiset{Scored(x, AllocationScore(x))} + multiset(ScoreAll(rest))
  {
    assert ([x] + rest)[1..] == rest;
  }

  lemma {:induction false} ScoreSwap(x: Opportunity, y: Opportunity, rest: seq<Opportunity>)
    ensures multiset(ScoreAll([x] + ([y] + rest)))
         == multiset{Scored(y, AllocationScore(y))} + multiset(ScoreAll([x] + rest))
  {
    ScoreBag(x, [y] + rest);
    ScoreBag(y, rest);
    ScoreBag(x, rest);
  }

  lemma {:induction false} ScoreSplit(before: seq<Opportunity>, x: Opportunity, after: seq<Opportunity>)
    ensures multiset(ScoreAll(before + [x] + after)) == multiset(ScoreAll([x] + (before + after)))
  {
    hide ScoreAll, AllocationScore;
    if before == [] {
      assert before + [x] + after == [x] + (before + after);
    } else {
      var y, rest := before[0], before[1..];
      ScoreSplit(rest, x, after);
      ScoreBag(y, rest + [x] + after);
      ScoreSwap(x, y, rest + after);
      assert before + [x] + after == [y] + (rest + [x] + after);
      assert before + after == [y] + (rest + after);
    }
  }

  lemma {:induction false} ScoreAllBag(ops: seq<Opportunity>, shuffled: seq<Opportunity>)
    requires multiset(ops) == multiset(shuffled)
    ensures multiset(ScoreAll(ops)) == multiset(ScoreAll(shuffled))
  {
    hide AllocationScore;
    SameBagSameLength(ops, shuffled);
    if ops != [] {
      var x, rest := ops[0], ops[1..];
      assert x in multiset(shuffled);
      var j :| 0 <= j < |shuffled| && shuffled[j] == x;
      var before, after := shuffled[..j], shuffled[j + 1..];
      assert shuffled == before + [x] + after;
      assert ops == [x] + rest;
      SameBagAfter(x, rest, before + after);
      ScoreAllBag(rest, before + after);
      ScoreSplit(before, x, after);
      ScoreBag(x, rest);
      ScoreBag(x, before + after);
    }
  }

  lemma {:induction false} SameBagAfter<T>(x: T, s: seq<T>, t: seq<T>)
    requires multiset{x} + multiset(s) == multiset{x} + multiset(t)
    ensures multiset(s) == multiset(t)
  {
    var h, m, n := multiset{x}, multiset(s), multiset(t);
    assert m == (h + m) - h == (h + n) - h == n;
  }

  ghost predicate RankableFields(ops: seq<Opportunity>) {
    forall i :: 0 <= i < |ops| ==> !ops[i].expectedProfitUsd.NaN? && !ops[i].expectedRoi.NaN?
  }

  lemma {:induction false} ScoredAreComparable(ops: seq<Opportunity>)
    requires RankableFields(ops)
    ensures AllComparable(ScoreAll(ops))
  {}

  lemma {:induction false} RankedIsCanonical(collation: string -> real, s: seq<Scored>, t: seq<Scored>)
    requires AllComparable(s) && AllComparable(t) && multiset(s) == multiset(t)
    requires DistinctIds(collation, multiset(s))
    ensures Ranked(collation, s) == Ranked(collation, t)
  {
    hide *;
    RankedIsSorted(collation, s);
    RankedIsSorted(collation, t);
    SortedIsUnique(collation, Ranked(collation, s), Ranked(collation, t));
  }

  lemma {:induction false} ShuffledNumbers(ops: seq<Opportunity>, shuffled: seq<Opportunity>)
    requires RankableFields(ops) && multiset(ops) == multiset(shuffled)
    ensures RankableFields(shuffled)
  {
    forall i | 0 <= i < |shuffled|
      ensures !shuffled[i].expectedProfitUsd.NaN? && !shuffled[i].expectedRoi.NaN?
    {
      assert shuffled[i] in multiset(ops);
    }
  }

  /** The whole allocation is the same for every order of the input. */
  lemma {:induction false} OrderIndependence(collation: string -> real, p: Policy, ops: seq<Opportunity>,
                                             shuffled: seq<Opportunity>)
    requires RankableFields(ops) && multiset(ops) == multiset(shuffled)
    requires DistinctIds(collation, multiset(ScoreAll(ops)))
    ensures Allocate(collation, p, ops) == Allocate(collation, p, shuffled)
  {
    ShuffledNumbers(ops, shuffled);
    ScoredAreComparable(ops);
    ScoredAreComparable(shuffled);
    ScoreAllBag(ops, shuffled);
    RankedIsCanonical(collation, ScoreAll(ops), ScoreAll(shuffled));
    hide Ranked, Lines, DistinctIds, ScoreAll;
  }

  // ---------- removal and addition before the ranking ----------

  function Kept<T>(ops: seq<T>, keep: T -> bool): seq<T> {
    if ops == [] then [] else (if keep(ops[0]) then [ops[0]] else []) + Kept(ops[1..], keep)
  }

  lemma {:induction false} InsertThenKeep(collation: string -> real, x: Scored, s: seq<Scored>, keep: Scored -> bool)
    requires Comparable(x) && AllComparable(s) && InOrder(collation, s)
    ensures Kept(Insert(collation, x, s), keep)
         == if keep(x) then Insert(collation, x, Kept(s, keep)) else Kept(s, keep)
  {
    if s == [] || Compare(collation, x, s[0]) <= 0 {
      assert ([x] + s)[1..] == s;
      if s != [] {
        HeadsAll(collation, x, s);
        KeptMembers(s, keep);
        assert Kept(s, keep) != [] ==> Kept(s, keep)[0] in s;
      }
    } else {
      var r := Insert(collation, x, s[1..]);
      InsertThenKeep(collation, x, s[1..], keep);
      assert ([s[0]] + r)[1..] == r;
      var kept := Kept(s[1..], keep);
      assert Kept([s[0]] + r, keep) == (if keep(s[0]) then [s[0]] else []) + Kept(r, keep);
      if keep(s[0]) {
        assert ([s[0]] + kept)[1..] == kept;
        assert Insert(collation, x, [s[0]] + kept) == [s[0]] + Insert(collation, x, kept);
      } else {
        assert Kept(s, keep) == kept && Kept([s[0]] + r, keep) == Kept(r, keep);
      }
    }
  }

  lemma {:induction false} KeptMembers(ops: seq<Scored>, keep: Scored -> bool)
    ensures forall y :: y in Kept(ops, keep) <==> y in ops && keep(y)
  {
    if ops != [] {
      KeptMembers(ops[1..], keep);
      assert ops == [ops[0]] + ops[1..];
    }
  }

  /** Striking items out commutes with ranking. */
  lemma {:induction false} KeepThenRank(collation: string -> real, ops: seq<Scored>, keep: Scored -> bool)
    requires AllComparable(ops)
    ensures Ranked(collation, Kept(ops, keep)) == Kept(Ranked(collation, ops), keep)
  {
    if ops != [] {
      var x, rest := ops[0], Ranked(collation, ops[1..]);
      KeepThenRank(collation, ops[1..], keep);
      RankedIsSorted(collation, ops[1..]);
      InsertThenKeep(collation, x, rest, keep);
      if keep(x) {
        assert Kept(ops, keep)[1..] == Kept(ops[1..], keep);
        assert Ranked(collation, Kept(ops, keep)) == Insert(collation, x, Kept(rest, keep));
      } else {
        assert Kept(ops, keep) == Kept(ops[1..], keep);
      }
    }
  }

  ghost predicate AllTied(collation: string -> real, s: seq<Scored>) {
    forall i, j :: 0 <= i < |s| && 0 <= j < |s| ==> Compare(collation, s[i], s[j]) == 0
  }

  lemma {:induction false} TiedStay(collation: string -> real, s: seq<Scored>)
    requires AllTied(collation, s)
    ensures Ranked(collation, s) == s
  {
    hide Compare;
    if s != [] {
      forall i, j | 0 <= i < |s[1..]| && 0 <= j < |s[1..]|
        ensures Compare(collation, s[1..][i], s[1..][j]) == 0
      {
        assert s[1..][i] == s[i + 1] && s[1..][j] == s[j + 1];
      }
      TiedStay(collation, s[1..]);
      if |s| > 1 {
        assert Compare(collation, s[0], s[1]) == 0;
      }
    }
  }

  /** In every list, the opportunities that tie with a given one on all keys stay in input
      order. */
  lemma {:induction false} TiesKeepInputOrder(collation: string -> real, ops: seq<Scored>, a: Scored)
    requires AllComparable(ops) && Comparable(a)
    ensures var tied := (sc: Scored) => Compare(collation, sc, a) == 0;
      Kept(Ranked(collation, ops), tied) == Kept(ops, tied)
  {
    var tied := (sc: Scored) => Compare(collation, sc, a) == 0;
    KeepThenRank(collation, ops, tied);
    KeptMembers(ops, tied);
    var kept := Kept(ops, tied);
    forall i, j | 0 <= i < |kept| && 0 <= j < |kept|
      ensures Compare(collation, kept[i], kept[j]) == 0
    {
      assert kept[i] in kept && kept[j] in kept;
      assert kept[i] in ops && kept[j] in ops;
      CompareIsTotalPreorder(collation, kept[i], a, kept[j]);
      CompareIsTotalPreorder(collation, kept[j], a, kept[i]);
    }
    hide Compare, Kept;
    TiedStay(collation, kept);
  }

  /** The id condition cannot be dropped: two opportunities that tie are ranked as they came. */
  lemma {:induction false} TiedPairFollowsInput(collation: string -> real, a: Scored, b: Scored)
    requires Comparable(a) && Comparable(b)
    ensures Ranked(collation, [a, b]) == [a, b] <==> Compare(collation, a, b) <= 0
    ensures a != b ==> (Ranked(collation, [a, b]) == Ranked(collation, [b, a]) <==> Compare(collation, a, b) != 0)
  {
    CompareIsTotalPreorder(collation, a, b, a);
    assert [a, b][1..] == [b] && [b, a][1..] == [a];
    assert Ranked(collation, [b]) == [b] && Ranked(collation, [a]) == [a];
    assert [b][1..] == [] && [a][1..] == [];
  }

  // ---------- striking out positions of the input ----------

  function InsertBit(collation: string -> real, x: Scored, bit: bool, s: seq<Scored>, bits: seq<bool>): (r: seq<bool>)
    requires |s| == |bits|
    ensures |r| == |bits| + 1
  {
    if s == [] || Compare(collation, x, s[0]) <= 0 then [bit] + bits
    else [bits[0]] + InsertBit(collation, x, bit, s[1..], bits[1..])
  }

  /** Carries a mark on every input position along with the ranking. */
  function RankMask(collation: string -> real, ops: seq<Scored>, keep: seq<bool>): (r: seq<bool>)
    requires |ops| == |keep|
    ensures |r| == |ops|
  {
    if ops == [] then []
    else InsertBit(collation, ops[0], keep[0], Ranked(collation, ops[1..]), RankMask(collation, ops[1..], keep[1..]))
  }

  ghost function Marked(s: seq<Scored>, bits: seq<bool>): multiset<(Scored, bool)>
    requires |s| == |bits|
  {
    if s == [] then multiset{} else multiset{(s[0], bits[0])} + Marked(s[1..], bits[1..])
  }

  lemma {:induction false} InsertMarks(collation: string -> real, x: Scored, bit: bool, s: seq<Scored>, bits: seq<bool>)
    requires |s| == |bits|
    ensures Marked(Insert(collation, x, s), InsertBit(collation, x, bit, s, bits))
         == multiset{(x, bit)} + Marked(s, bits)
  {
    hide Compare;
    if s == [] || Compare(collation, x, s[0]) <= 0 {
      assert ([x] + s)[1..] == s && ([bit] + bits)[1..] == bits;
    } else {
      var r, q := Insert(collation, x, s[1..]), InsertBit(collation, x, bit, s[1..], bits[1..]);
      InsertMarks(collation, x, bit, s[1..], bits[1..]);
      assert ([s[0]] + r)[1..] == r && ([bits[0]] + q)[1..] == q;
    }
  }

  /** Every opportunity keeps its own mark. */
  lemma {:induction false} MarksFollow(collation: string -> real, ops: seq<Scored>, keep: seq<bool>)
    requires |ops| == |keep|
    ensures Marked(Ranked(collation, ops), RankMask(collation, ops, keep)) == Marked(ops, keep)
  {
    if ops != [] {
      MarksFollow(collation, ops[1..], keep[1..]);
      InsertMarks(collation, ops[0], keep[0], Ranked(collation, ops[1..]), RankMask(collation, ops[1..], keep[1..]));
    }
  }

  lemma {:induction false} SelectMembers<T>(s: seq<T>, bits: seq<bool>)
    requires |s| == |bits|
    ensures |Select(s, bits)| <= |s| && forall y :: y in Select(s, bits) ==> y in s
  {
    if s != [] {
      SelectMembers(s[1..], bits[1..]);
    }
  }

  lemma {:induction false} SelectFirst<T>(x: T, bit: bool, s: seq<T>, bits: seq<bool>)
    requires |s| == |bits|
    ensures Select([x] + s, [bit] + bits) == if bit then [x] + Select(s, bits) else Select(s, bits)
  {
    assert ([x] + s)[1..] == s && ([bit] + bits)[1..] == bits;
  }

  lemma {:induction false} InsertPast(collation: string -> real, x: Scored, bit: bool, y: Scored, yBit: bool,
                                      s: seq<Scored>, bits: seq<bool>)
    requires |s| == |bits| && Compare(collation, x, y) > 0
    ensures Insert(collation, x, [y] + s) == [y] + Insert(collation, x, s)
    ensures InsertBit(collation, x, bit, [y] + s, [yBit] + bits) == [yBit] + InsertBit(collation, x, bit, s, bits)
  {
    hide Compare;
    assert ([y] + s)[1..] == s && ([yBit] + bits)[1..] == bits;
  }

  lemma {:induction false} InsertFirst(collation: string -> real, x: Scored, bit: bool, s: seq<Scored>, bits: seq<bool>)
    requires |s| == |bits| && Heads(collation, x, s)
    ensures Insert(collation, x, s) == [x] + s && InsertBit(collation, x, bit, s, bits) == [bit] + bits
    ensures Insert(collation, x, Select(s, bits)) == [x] + Select(s, bits)
  {
    hide Compare;
    SelectMembers(s, bits);
    var kept := Select(s, bits);
    assert kept != [] ==> kept[0] in s;
  }

  lemma {:induction false} InsertThenSelect(collation: string -> real, x: Scored, bit: bool,
                                           s: seq<Scored>, bits: seq<bool>)
    requires |s| == |bits| && Comparable(x) && AllComparable(s) && InOrder(collation, s)
    ensures Select(Insert(collation, x, s), InsertBit(collation, x, bit, s, bits))
         == if bit then Insert(collation, x, Select(s, bits)) else Select(s, bits)
  {
    hide Compare, Insert, InsertBit, Select;
    if s == [] || Compare(collation, x, s[0]) <= 0 {
      if s != [] {
        HeadsAll(collation, x, s);
      }
      InsertFirst(collation, x, bit, s, bits);
      SelectFirst(x, bit, s, bits);
    } else {
      var y, yBit, tail, tailBits := s[0], bits[0], s[1..], bits[1..];
      assert s == [y] + tail && bits == [yBit] + tailBits;
      assert AllComparable(tail);
      InsertThenSelect(collation, x, bit, tail, tailBits);
      hide InOrder, AllComparable;
      InsertPast(collation, x, bit, y, yBit, tail, tailBits);
      SelectFirst(y, yBit, tail, tailBits);
      SelectFirst(y, yBit, Insert(collation, x, tail), InsertBit(collation, x, bit, tail, tailBits));
      var kept := Select(tail, tailBits);
      InsertPast(collation, x, bit, y, yBit, kept, AllBut(|kept|, 0));
    }
  }

  /** Striking out positions commutes with ranking. */
  lemma {:induction false} SelectThenRank(collation: string -> real, ops: seq<Scored>, keep: seq<bool>)
    requires |ops| == |keep| && AllComparable(ops)
    ensures Ranked(collation, Select(ops, keep)) == Select(Ranked(collation, ops), RankMask(collation, ops, keep))
  {
    if ops != [] {
      var x, rest, bits := ops[0], Ranked(collation, ops[1..]), RankMask(collation, ops[1..], keep[1..]);
      SelectThenRank(collation, ops[1..], keep[1..]);
      RankedIsSorted(collation, ops[1..]);
      hide Compare, InOrder, Insert, InsertBit;
      InsertThenSelect(collation, x, keep[0], rest, bits);
      var kept := Select(ops[1..], keep[1..]);
      if keep[0] {
        assert ([x] + kept)[1..] == kept;
      } else {
        assert Select(ops, keep) == kept;
      }
    }
  }

  lemma {:induction false} SelectThenScore(ops: seq<Opportunity>, keep: seq<bool>)
    requires |ops| == |keep|
    ensures ScoreAll(Select(ops, keep)) == Select(ScoreAll(ops), keep)
  {
    hide AllocationScore;
    if ops != [] {
      SelectThenScore(ops[1..], keep[1..]);
      var kept := Select(ops[1..], keep[1..]);
      if keep[0] {
        assert ([ops[0]] + kept)[1..] == kept;
      } else {
        assert Select(ops, keep) == kept;
      }
    }
  }

  /** Where the marks on the input positions end up among the lines. */
  function LineMask(collation: string -> real, ops: seq<Opportunity>, keep: seq<bool>): (r: seq<bool>)
    requires |ops| == |keep|
    ensures |r| == |ops|
  {
    RankMask(collation, ScoreAll(ops), keep)
  }

  /** Dropping any unfunded positions of the input and allocating again gives every remaining
      opportunity the very line it had, also beside an equal one that was dropped. */
  lemma {:induction false} RemovingUnfunded(collation: string -> real, p: Policy, ops: seq<Opportunity>,
                                            keep: seq<bool>)
    requires RankableFields(ops) && |keep| == |ops|
    requires var lines, mask := Allocate(collation, p, ops), LineMask(collation, ops, keep);
      |lines| == |mask| && forall i :: 0 <= i < |lines| && !mask[i] ==> lines[i].capital == 0.0
    ensures |Allocate(collation, p, ops)| == |ops|
    ensures Allocate(collation, p, Select(ops, keep))
         == Select(Allocate(collation, p, ops), LineMask(collation, ops, keep))
  {
    hide Lines, AllocationScore, Deployable, ShareOf, Ranked, RankMask;
    ScoredAreComparable(ops);
    SelectThenScore(ops, keep);
    SelectThenRank(collation, ScoreAll(ops), keep);
    UnfundedAreIrrelevant(TermsOf(p), Start(TermsOf(p)), Ranked(collation, ScoreAll(ops)),
                          LineMask(collation, ops, keep));
  }

  lemma {:induction false} SelectPrefix<T>(s: seq<T>, bits: seq<bool>, k: nat)
    requires |s| == |bits| && k <= |s| && forall i :: 0 <= i < k ==> bits[i]
    ensures |Select(s, bits)| >= k && Select(s, bits)[..k] == s[..k]
  {
    if k > 0 {
      assert forall i :: 0 <= i < k - 1 ==> bits[1..][i] == bits[i + 1];
      SelectPrefix(s[1..], bits[1..], k - 1);
      var kept := Select(s[1..], bits[1..]);
      assert Select(s, bits) == [s[0]] + kept;
      assert s[..k] == [s[0]] + s[1..][..k - 1];
    }
  }

  /** Adding opportunities anywhere in the input - those not marked as kept - leaves the first
      lines as they were, down to the first line that goes to one of them. */
  lemma {:induction false} AddingKeepsLinesAbove(collation: string -> real, p: Policy, ops: seq<Opportunity>,
                                                 keep: seq<bool>, k: nat)
    requires RankableFields(ops) && |keep| == |ops| && k <= |ops|
    requires forall i :: 0 <= i < k ==> LineMask(collation, ops, keep)[i]
    ensures k <= |Allocate(collation, p, Select(ops, keep))| && k <= |Allocate(collation, p, ops)|
    ensures Allocate(collation, p, ops)[..k] == Allocate(collation, p, Select(ops, keep))[..k]
  {
    hide Lines, AllocationScore, Deployable, ShareOf, Ranked, RankMask;
    ScoredAreComparable(ops);
    SelectThenScore(ops, keep);
    SelectThenRank(collation, ScoreAll(ops), keep);
    var t, ranked, fewer := TermsOf(p), Ranked(collation, ScoreAll(ops)),
        Ranked(collation, ScoreAll(Select(ops, keep)));
    SelectPrefix(ranked, LineMask(collation, ops, keep), k);
    assert ranked == ranked[..k] + ranked[k..] && fewer == fewer[..k] + fewer[k..];
    LowerRankedAreIrrelevant(t, Start(t), ranked[..k], ranked[k..]);
    LowerRankedAreIrrelevant(t, Start(t), fewer[..k], fewer[k..]);
  }

  /** Marks everything but one position. */
  function AllBut(count: nat, index: nat): (r: seq<bool>)
    ensures |r| == count && forall i :: 0 <= i < count ==> r[i] == (i != index)
  {
    seq(count, i => i != index)
  }

  lemma {:induction false} SelectAllBut<T>(before: seq<T>, x: T, after: seq<T>)
    ensures Select(before + [x] + after, AllBut(|before| + 1 + |after|, |before|)) == before + after
  {
    var all, bits := before + [x] + after, AllBut(|before| + 1 + |after|, |before|);
    if before == [] {
      assert all[1..] == after && all[0] == x;
      SelectAll(after, bits[1..]);
      assert before + after == after;
    } else {
      assert all[1..] == before[1..] + [x] + after;
      assert bits[1..] == AllBut(|before| + |after|, |before| - 1);
      SelectAllBut(before[1..], x, after);
      assert before + after == [before[0]] + (before[1..] + after);
    }
  }

  lemma {:induction false} SelectAll<T>(s: seq<T>, bits: seq<bool>)
    requires |s| == |bits| && forall i :: 0 <= i < |s| ==> bits[i]
    ensures Select(s, bits) == s
  {
    SelectPrefix(s, bits, |s|);
    SelectMembers(s, bits);
  }

  /** The one unmarked item, wherever it is. */
  lemma {:induction false} OneUnmarked(s: seq<Scored>, bits: seq<bool>, index: nat)
    requires |s| == |bits| && index < |s| && !bits[index]
    requires forall i :: 0 <= i < |s| && i != index ==> bits[i]
    ensures forall y, bit :: (y, bit) in Marked(s, bits) && !bit ==> y == s[index]
    ensures (s[index], false) in Marked(s, bits)
  {
    if index == 0 {
      assert forall i :: 0 <= i < |s[1..]| ==> bits[1..][i];
      AllMarked(s[1..], bits[1..]);
    } else {
      assert forall i :: 0 <= i < |s[1..]| && i != index - 1 ==> bits[1..][i];
      OneUnmarked(s[1..], bits[1..], index - 1);
    }
  }

  lemma {:induction false} AllMarked(s: seq<Scored>, bits: seq<bool>)
    requires |s| == |bits| && forall i :: 0 <= i < |s| ==> bits[i]
    ensures forall y, bit :: (y, bit) in Marked(s, bits) ==> bit
  {
    if s != [] {
      AllMarked(s[1..], bits[1..]);
    }
  }

  /** The first unmarked item, if there is any. */
  lemma {:induction false} FirstUnmarked(s: seq<Scored>, bits: seq<bool>) returns (k: nat)
    requires |s| == |bits| && exists y, bit :: (y, bit) in Marked(s, bits) && !bit
    ensures k < |s| && !bits[k] && (s[k], false) in Marked(s, bits) && forall i :: 0 <= i < k ==> bits[i]
  {
    if !bits[0] {
      k := 0;
    } else {
      var k1 := FirstUnmarked(s[1..], bits[1..]);
      k := k1 + 1;
      assert forall i :: 0 < i < k ==> bits[i] == bits[1..][i - 1];
    }
  }

  /** Adding one opportunity, at any place of the input, leaves every line ranked above it as
      it was; none of those above ranks below it, and none below it ranks above. */
  lemma {:induction false} AddingLowerRanked(collation: string -> real, p: Policy, before: seq<Opportunity>,
                                             x: Opportunity, after: seq<Opportunity>) returns (k: nat)
    requires RankableFields(before + [x] + after)
    ensures var more, fewer := Allocate(collation, p, before + [x] + after), Allocate(collation, p, before + after);
      && k < |more| && k <= |fewer| && more[k].scored.op == x && more[..k] == fewer[..k]
      && (forall i :: 0 <= i < k ==> Compare(collation, more[i].scored, more[k].scored) <= 0)
      && (forall i :: k < i < |more| ==> Compare(collation, more[k].scored, more[i].scored) <= 0)
  {
    hide Compare, Lines, AllocationScore, Deployable, ShareOf, Ranked, RankMask, InOrder, Marked;
    var ops := before + [x] + after;
    var keep, sx := AllBut(|ops|, |before|), Scored(x, AllocationScore(x));
    var scored, ranked, mask := ScoreAll(ops), Ranked(collation, ScoreAll(ops)), LineMask(collation, ops, keep);
    SelectAllBut(before, x, after);
    ScoredAt(ops, |before|);
    OneUnmarked(scored, keep, |before|);
    MarksFollow(collation, scored, keep);
    k := FirstUnmarked(ranked, mask);
    assert ranked[k] == sx;
    AddingKeepsLinesAbove(collation, p, ops, keep, k);
    ScoredAreComparable(ops);
    RankedIsSorted(collation, scored);
    forall i, j | 0 <= i < j < |ranked|
      ensures Compare(collation, ranked[i], ranked[j]) <= 0
    {
      InOrderAt(collation, ranked, i, j);
    }
  }

  lemma {:induction false} ScoredAt(ops: seq<Opportunity>, i: nat)
    requires i < |ops|
    ensures ScoreAll(ops)[i] == Scored(ops[i], AllocationScore(ops[i]))
  {
    hide AllocationScore;
    if i > 0 {
      ScoredAt(ops[1..], i - 1);
    }
  }

  lemma {:induction false} InOrderAt(collation: string -> real, s: seq<Scored>, i: nat, j: nat)
    requires InOrder(collation, s) && i < j < |s|
    ensures Compare(collation, s[i], s[j]) <= 0
  {
    hide Compare;
    if i == 0 {
      assert s[j] == s[1..][j - 1];
    } else {
      InOrderAt(collation, s[1..], i - 1, j - 1);
    }
  }

  // ---------- what NaN does ----------

  /** An item between two that both tie with it keeps them in input order, although they do
      not tie with each other. */
  lemma {:induction false} TiesHideOrder(collation: string -> real, a: Scored, n: Scored, b: Scored, keep: seq<bool>)
    requires |keep| == 3
    requires Compare(collation, a, n) == 0 && Compare(collation, n, b) == 0 && Compare(collation, a, b) > 0
    ensures Ranked(collation, [a, n, b]) == [a, n, b] && RankMask(collation, [a, n, b], keep) == keep
    ensures Ranked(collation, [a, b]) == [b, a]
  {
    hide Compare;
    assert [a, n, b][1..] == [n, b] && [n, b][1..] == [b] && [a, b][1..] == [b] && [b][1..] == [];
    assert Ranked(collation, []) == [];
    assert Ranked(collation, [b]) == [b];
    assert Insert(collation, a, []) == [a];
    assert Insert(collation, a, [b]) == [b, a];
    assert Ranked(collation, [n, b]) == [n, b];
    assert RankMask(collation, [], keep[1..][1..][1..]) == [];
    assert RankMask(collation, [b], keep[1..][1..]) == [keep[2]];
    assert RankMask(collation, [n, b], keep[1..]) == [keep[1], keep[2]];
  }

  /** Wherever it stands among opportunities without NaN, striking `n` out commutes with
      ranking. */
  ghost predicate StrikesOut(collation: string -> real, n: Scored) {
    forall before: seq<Scored>, after: seq<Scored> ::
      AllComparable(before + after) ==> StruckOut(collation, before, n, after)
  }

  ghost predicate StruckOut(collation: string -> real, before: seq<Scored>, n: Scored, after: seq<Scored>) {
    var all := before + [n] + after;
    Select(Ranked(collation, all), RankMask(collation, all, AllBut(|all|, |before|)))
    == Ranked(collation, before + after)
  }

  /** `n` with a number for its profit, or for its return if the profit is one already. */
  function CopyOf(n: Scored, value: real): Scored {
    if n.op.expectedProfitUsd.NaN? then n.(op := n.op.(expectedProfitUsd := Finite(value), expectedRoi := Finite(0.0)))
    else n.(op := n.op.(expectedRoi := Finite(value)))
  }

  lemma {:induction false} NaNTies(collation: string -> real, n: Scored, a: Scored, b: Scored)
    requires !Comparable(n) && a == CopyOf(n, 1.0) && b == CopyOf(n, 2.0)
    ensures Comparable(a) && Comparable(b) && a != b
    ensures Compare(collation, a, n) == 0 && Compare(collation, n, b) == 0 && Compare(collation, a, b) > 0
  {}

  /** It does exactly for opportunities without NaN: one with NaN fails already between two
      copies of itself that differ in the NaN field. */
  lemma {:induction false} StrikesOutIff(collation: string -> real, n: Scored)
    ensures StrikesOut(collation, n) <==> Comparable(n)
  {
    hide Compare, Select, Ranked, RankMask;
    if Comparable(n) {
      forall before: seq<Scored>, after: seq<Scored> | AllComparable(before + after)
        ensures StruckOut(collation, before, n, after)
      {
        var all := before + [n] + after;
        forall i | 0 <= i < |all|
          ensures Comparable(all[i])
        {
          if i < |before| {
            assert all[i] == (before + after)[i];
          } else if i > |before| {
            assert all[i] == (before + after)[i - 1];
          }
        }
        SelectAllBut(before, n, after);
        SelectThenRank(collation, all, AllBut(|all|, |before|));
      }
    } else {
      var a, b := CopyOf(n, 1.0), CopyOf(n, 2.0);
      NaNTies(collation, n, a, b);
      var keep := AllBut(3, 1);
      TiesHideOrder(collation, a, n, b, keep);
      assert keep == [true, false, true];
      SelectAllBut([a], n, [b]);
      assert [a] + [n] + [b] == [a, n, b] && [a] + [b] == [a, b];
      assert AllComparable([a] + [b]);
      assert !StruckOut(collation, [a], n, [b]);
    }
  }

  const ONE_DOLLAR := Policy("v", "shadow", 1.0, 0.0, 10.0, 1.0, 1.0, 0.0, 0.0, 0.0, 0.0, false, false, false)

  function Sample(id: string, capital: real, profit: Num, roi: real): Opportunity {
    Opportunity(id, None, None, true, true, AutoBuyReady, true, true, true,
                Finite(capital), profit, Finite(roi), None, Finite(1.0))
  }

  lemma {:induction false} SampleScores()
    ensures AllocationScore(Sample("a", 1.0, Finite(1.0), 1.0)) == 0.935
    ensures AllocationScore(Sample("n", 1.0, NaN, 2.5)) == 0.935
    ensures AllocationScore(Sample("b", 2.0, Finite(2.0), 1.0)) == 0.935
  {
    assert Round6(0.935) == 0.935;
  }

  lemma {:induction false} OneDollarTerms()
    ensures TermsOf(ONE_DOLLAR) == Terms(ONE_DOLLAR, 1.0, 1.0, 1.0)
  {
    assert Round2(0.0) == 0.0 && Round2(1.0) == 1.0;
    assert ShareOf(1.0, 0.0) == 0.0 && ShareOf(1.0, 1.0) == 1.0;
    hide ShareOf, Round2;
  }

  /** The first sample of a pass over one dollar gets the dollar, and the next gets nothing. */
  lemma {:induction false} DollarIsSpent(t: Terms, first: Scored, second: Scored)
    requires t == Terms(ONE_DOLLAR, 1.0, 1.0, 1.0) && first.allocationScore == second.allocationScore == 0.935
    requires first.op == Sample(first.op.sourceRecordId, SafeNumber(first.op.requiredCapitalUsd),
                              first.op.expectedProfitUsd, 1.0)
    requires second.op == Sample(second.op.sourceRecordId, SafeNumber(second.op.requiredCapitalUsd),
                               second.op.expectedProfitUsd, 1.0)
    requires 1.0 <= SafeNumber(first.op.requiredCapitalUsd) <= 10.0 && Positive(first.op.expectedProfitUsd)
    requires 1.0 <= SafeNumber(second.op.requiredCapitalUsd) <= 10.0 && Positive(second.op.expectedProfitUsd)
    ensures var line := Decide(t, Start(t), first);
      && line.capital == 1.0 && line.scored == first
      && Decide(t, Post(Start(t), line), second).capital == 0.0
  {
    assert Round2(0.0) == 0.0 && Round2(1.0) == 1.0;
    hide Round2;
    var b := Start(t);
    assert Allowed(t, b, first) == 1.0;
    var line := Decide(t, b, first);
    assert line.capital == 1.0;
    var c := Post(b, line);
    assert c.remaining == 0.0 && Used(c.category, "unknown") == 1.0 && Used(c.family, "unknown") == 1.0;
    assert Allowed(t, c, second) == 0.0;
  }

  lemma {:induction false} LinesOfTwo(t: Terms, b: Books, x: Scored, y: Scored)
    ensures var first := Decide(t, b, x);
      Lines(t, b, [x, y]) == [first, Decide(t, Post(b, first), y)]
  {
    hide Decide, Post;
    assert [x, y][1..] == [y] && [y][1..] == [];
    var c := Post(b, Decide(t, b, x));
    assert Lines(t, c, [y]) == [Decide(t, c, y)];
  }

  lemma {:induction false} NaNIsBlocked(t: Terms, b: Books, n: Scored)
    requires t.policy == ONE_DOLLAR && n.op == Sample("n", 1.0, NaN, 2.5)
    ensures Decide(t, b, n) == Line(n, 0.0, TierBlocked, Invalid)
  {}

  lemma {:induction false} SamplesAre()
    ensures
      var a, n, b := Sample("a", 1.0, Finite(1.0), 1.0), Sample("n", 1.0, NaN, 2.5), Sample("b", 2.0, Finite(2.0), 1.0);
      && ScoreAll([a, n, b]) == [Scored(a, 0.935), Scored(n, 0.935), Scored(b, 0.935)]
      && ScoreAll([a, b]) == [Scored(a, 0.935), Scored(b, 0.935)]
  {
    var a, n, b := Sample("a", 1.0, Finite(1.0), 1.0), Sample("n", 1.0, NaN, 2.5), Sample("b", 2.0, Finite(2.0), 1.0);
    SampleScores();
    hide AllocationScore;
    assert [a, n, b][1..] == [n, b] && [n, b][1..] == [b] && [a, b][1..] == [b] && [b][1..] == [];
    assert ScoreAll([b]) == [Scored(b, 0.935)];
    assert ScoreAll([n, b]) == [Scored(n, 0.935), Scored(b, 0.935)];
  }

  lemma {:induction false} SampleRanking(collation: string -> real)
    ensures
      var a, n, b := Sample("a", 1.0, Finite(1.0), 1.0), Sample("n", 1.0, NaN, 2.5), Sample("b", 2.0, Finite(2.0), 1.0);
      var sa, sn, sb := Scored(a, 0.935), Scored(n, 0.935), Scored(b, 0.935);
      && Ranked(collation, [sa, sn, sb]) == [sa, sn, sb]
      && Ranked(collation, [sa, sb]) == [sb, sa]
  {
    var a, n, b := Sample("a", 1.0, Finite(1.0), 1.0), Sample("n", 1.0, NaN, 2.5), Sample("b", 2.0, Finite(2.0), 1.0);
    TiesHideOrder(collation, Scored(a, 0.935), Scored(n, 0.935), Scored(b, 0.935), [true, true, true]);
  }

  lemma {:induction false} SampleLines(t: Terms, sa: Scored, sn: Scored, sb: Scored)
    requires t == Terms(ONE_DOLLAR, 1.0, 1.0, 1.0)
    requires sa == Scored(Sample("a", 1.0, Finite(1.0), 1.0), 0.935)
    requires sb == Scored(Sample("b", 2.0, Finite(2.0), 1.0), 0.935)
    requires sn == Scored(Sample("n", 1.0, NaN, 2.5), 0.935)
    ensures var beside, without := Lines(t, Start(t), [sa, sn, sb]), Lines(t, Start(t), [sb, sa]);
      && beside[0].capital == 1.0 && beside[1] == Line(sn, 0.0, TierBlocked, Invalid)
      && without[1].capital == 0.0
  {
    DollarIsSpent(t, sa, sb);
    DollarIsSpent(t, sb, sa);
    hide Decide, Post;
    NaNIsBlocked(t, Post(Start(t), Decide(t, Start(t), sa)), sn);
    LinesOfTwo(t, Start(t), sb, sa);
    LinesOfTwo(t, Start(t), sa, sn);
    LowerRankedAreIrrelevant(t, Start(t), [sa, sn], [sb]);
    assert [sa, sn] + [sb] == [sa, sn, sb];
    hide Lines;
    var beside := Lines(t, Start(t), [sa, sn, sb]);
    assert beside[..2][0] == beside[0] && beside[..2][1] == beside[1];
  }

  /** With NaN the allocation can depend on a blocked opportunity: with one dollar to spend,
      `a` is funded beside `n`, which governance blocks, and gets nothing without it. */
  lemma {:induction false} BlockedNaNChangesFunding(collation: string -> real)
    ensures
      var a, n, b := Sample("a", 1.0, Finite(1.0), 1.0), Sample("n", 1.0, NaN, 2.5), Sample("b", 2.0, Finite(2.0), 1.0);
      var beside, without := Allocate(collation, ONE_DOLLAR, [a, n, b]), Allocate(collation, ONE_DOLLAR, [a, b]);
      && ValidatePolicy(ONE_DOLLAR).None?
      && |beside| == 3 && beside[0].scored.op == a && beside[0].capital == 1.0
      && beside[1].scored.op == n && beside[1].tier == TierBlocked && beside[1].capital == 0.0
      && |without| == 2 && without[1].scored.op == a && without[1].capital == 0.0
  {
    var a, n, b := Sample("a", 1.0, Finite(1.0), 1.0), Sample("n", 1.0, NaN, 2.5), Sample("b", 2.0, Finite(2.0), 1.0);
    SamplesAre();
    SampleRanking(collation);
    OneDollarTerms();
    hide TermsOf, ScoreAll, Ranked, Lines, Sample;
    SampleLines(TermsOf(ONE_DOLLAR), Scored(a, 0.935), Scored(n, 0.935), Scored(b, 0.935));
  }

  // ---------- what the results say of the fields ----------

  /** The numeric order, infinities included; it holds of nothing that is not a number. */
  predicate NumAtLeast(a: Num, b: Num) {
    !a.NaN? && !b.NaN? && (a.PosInfinity? || b.NegInfinity? || (a.Finite? && b.Finite? && a.value >= b.value))
  }

  predicate NumAbove(a: Num, b: Num) {
    NumAtLeast(a, b) && a != b
  }

  /** Higher score first; on equal scores higher profit; then higher return; then the lower id. */
  predicate ServedBefore(collation: string -> real, a: Scored, b: Scored) {
    || a.allocationScore > b.allocationScore
    || (a.allocationScore == b.allocationScore &&
        (|| NumAbove(a.op.expectedProfitUsd, b.op.expectedProfitUsd)
         || (a.op.expectedProfitUsd == b.op.expectedProfitUsd &&
             (|| NumAbove(a.op.expectedRoi, b.op.expectedRoi)
              || (a.op.expectedRoi == b.op.expectedRoi &&
                  collation(a.op.sourceRecordId) <= collation(b.op.sourceRecordId))))))
  }

  lemma {:induction false} CompareMeans(collation: string -> real, a: Scored, b: Scored)
    requires Comparable(a) && Comparable(b)
    ensures Compare(collation, a, b) <= 0 <==> ServedBefore(collation, a, b)
  {}

  ghost function OpsOf(lines: seq<Line>): multiset<Opportunity> {
    if lines == [] then multiset{} else multiset{lines[0].scored.op} + OpsOf(lines[1..])
  }

  ghost function ScoredOps(s: seq<Scored>): multiset<Opportunity> {
    if s == [] then multiset{} else multiset{s[0].op} + ScoredOps(s[1..])
  }

  lemma {:induction false} InsertOps(collation: string -> real, x: Scored, s: seq<Scored>)
    ensures ScoredOps(Insert(collation, x, s)) == multiset{x.op} + ScoredOps(s)
  {
    hide Compare;
    if s == [] || Compare(collation, x, s[0]) <= 0 {
      assert ([x] + s)[1..] == s;
    } else {
      var r := Insert(collation, x, s[1..]);
      InsertOps(collation, x, s[1..]);
      assert ([s[0]] + r)[1..] == r;
    }
  }

  lemma {:induction false} RankedOps(collation: string -> real, ops: seq<Scored>)
    ensures ScoredOps(Ranked(collation, ops)) == ScoredOps(ops)
  {
    if ops != [] {
      RankedOps(collation, ops[1..]);
      InsertOps(collation, ops[0], Ranked(collation, ops[1..]));
    }
  }

  lemma {:induction false} ScoreOps(ops: seq<Opportunity>)
    ensures ScoredOps(ScoreAll(ops)) == multiset(ops)
    ensures forall i :: 0 <= i < |ops| ==> ScoreAll(ops)[i].allocationScore == AllocationScore(ops[i])
  {
    hide AllocationScore;
    if ops != [] {
      ScoreOps(ops[1..]);
      assert ops == [ops[0]] + ops[1..];
    }
  }

  lemma {:induction false} LinesOps(t: Terms, b: Books, ops: seq<Scored>)
    ensures OpsOf(Lines(t, b, ops)) == ScoredOps(ops)
    decreases |ops|
  {
    hide Decide, Post;
    if ops != [] {
      var line := Decide(t, b, ops[0]);
      var rest := Lines(t, Post(b, line), ops[1..]);
      LinesOps(t, Post(b, line), ops[1..]);
      assert ([line] + rest)[1..] == rest;
      assert Lines(t, b, ops)[0].scored == ops[0];
    }
  }

  lemma {:induction false} RankedKeepsScores(collation: string -> real, ops: seq<Opportunity>, i: nat)
    requires i < |ops|
    ensures var sc := Ranked(collation, ScoreAll(ops))[i];
      sc.allocationScore == AllocationScore(sc.op)
  {
    hide AllocationScore, Compare;
    ScoreOps(ops);
    InsertedMembers(collation, ScoreAll(ops));
    var ranked := Ranked(collation, ScoreAll(ops));
    assert ranked[i] in ranked;
    var k :| 0 <= k < |ops| && ScoreAll(ops)[k] == ranked[i];
  }

  lemma {:induction false} InsertedMembers(collation: string -> real, ops: seq<Scored>)
    ensures forall y :: y in Ranked(collation, ops) <==> y in ops
  {
    hide Compare;
    if ops != [] {
      InsertedMembers(collation, ops[1..]);
      InsertMembers(collation, ops[0], Ranked(collation, ops[1..]));
      assert ops == [ops[0]] + ops[1..];
    }
  }

  /** The lines are one for each opportunity of the input, scored as such, and without NaN every
      line is served before all later ones: by score, then profit, then return, then id. */
  lemma {:induction false} LinesAreRanked(collation: string -> real, p: Policy, ops: seq<Opportunity>, i: nat, j: nat)
    requires RankableFields(ops) && i < j < |ops|
    ensures var lines := Allocate(collation, p, ops);
      && |lines| == |ops| && OpsOf(lines) == multiset(ops)
      && lines[i].scored.allocationScore == AllocationScore(lines[i].scored.op)
      && ServedBefore(collation, lines[i].scored, lines[j].scored)
  {
    hide Compare, AllocationScore, InOrder, TermsOf, Lines, Ranked, ScoreAll, ServedBefore;
    var ranked := Ranked(collation, ScoreAll(ops));
    ScoredAreComparable(ops);
    RankedIsSorted(collation, ScoreAll(ops));
    InOrderAt(collation, ranked, i, j);
    CompareMeans(collation, ranked[i], ranked[j]);
    RankedKeepsScores(collation, ops, i);
    ScoreOps(ops);
    RankedOps(collation, ScoreAll(ops));
    LinesOps(TermsOf(p), Start(TermsOf(p)), ranked);
  }

  /** The checks of governance in their order, and what each reports. */
  function Checks(op: Opportunity, p: Policy): (r: seq<(bool, GovernanceFailure)>)
    ensures |r| == 11
  {
    [(op.buyQualified, NotBuyQualified),
     (op.buyDecision, NotBuyDecision),
     (op.executionStatus !in {Blocked, Expired, CapitalLimitSkipped}, ExecutionBlocked),
     (op.executionStatus in {AutoBuyReady, BidMonitorReady, ReviewRequired}, ExecutionNotAllocatable),
     (p.requireCapitalSafety ==> op.capitalSafetyPasses, CapitalSafetyNotAllocatable),
     (p.requireLiveness ==> op.livenessPasses, LivenessNotAllocatable),
     (p.requireValidCostBasis ==> op.costBasisPasses, InvalidCostBasis),
     (op.requiredCapitalUsd.Finite? && op.requiredCapitalUsd.value > 0.0, InvalidRequiredCapital),
     (op.expectedProfitUsd.Finite? && op.expectedProfitUsd.value > 0.0, InvalidExpectedProfit),
     (op.expectedRoi.Finite? && op.expectedRoi.value > 0.0, InvalidExpectedRoi),
     (op.confidenceScore.Finite? && op.confidenceScore.value >= p.minConfidenceScore, ConfidenceBelowMinimum)]
  }

  predicate PassesAll(op: Opportunity, p: Policy) {
    forall k :: 0 <= k < |Checks(op, p)| ==> Checks(op, p)[k].0
  }

  /** Governance passes exactly what passes every check, and otherwise names the first that
      fails. */
  lemma {:induction false} GovernanceLaw(op: Opportunity, p: Policy, k: nat)
    requires k < |Checks(op, p)|
    ensures GovernanceFailureOf(op, p).None? <==> PassesAll(op, p)
    ensures !Checks(op, p)[k].0 && (forall j :: 0 <= j < k ==> Checks(op, p)[j].0) ==>
      GovernanceFailureOf(op, p) == Some(Checks(op, p)[k].1)
  {
    var cs := Checks(op, p);
    assert PassesAll(op, p) ==> cs[0].0 && cs[1].0 && cs[2].0 && cs[3].0 && cs[4].0 && cs[5].0;
    assert PassesAll(op, p) ==> cs[6].0 && cs[7].0 && cs[8].0 && cs[9].0 && cs[10].0;
    if forall j :: 0 <= j < k ==> cs[j].0 {
      assert forall j :: 0 <= j < 11 && j < k ==> cs[j].0;
      assert (k > 0 ==> cs[0].0) && (k > 1 ==> cs[1].0) && (k > 2 ==> cs[2].0) && (k > 3 ==> cs[3].0)
        && (k > 4 ==> cs[4].0) && (k > 5 ==> cs[5].0) && (k > 6 ==> cs[6].0) && (k > 7 ==> cs[7].0)
        && (k > 8 ==> cs[8].0) && (k > 9 ==> cs[9].0);
    }
  }

  /** The checks of a policy in their order, and what each reports. */
  function PolicyChecks(p: Policy): seq<(bool, PolicyError)> {
    [(p.policyVersion != "", InvalidPolicyVersion),
     (p.mode in {"shadow", "production"}, InvalidMode),
     (p.totalCapitalUsd > 0.0, InvalidTotalCapital),
     (0.0 <= p.reservePct < 0.9, InvalidReservePct),
     (p.maxPerItemUsd > 0.0, InvalidMaxPerItem),
     (0.0 < p.maxCategoryExposurePct <= 1.0, InvalidMaxCategoryExposure),
     (0.0 < p.maxFamilyExposurePct <= 1.0, InvalidMaxFamilyExposure),
     (p.minBuyAPlusScore >= p.minBuyAScore >= p.minBuyBScore, InvalidTierScoreOrder),
     (0.0 <= p.minConfidenceScore <= 1.0, InvalidMinConfidence)]
  }

  /** A policy is accepted exactly when it passes every check, and otherwise the first that fails
      is reported. */
  lemma {:induction false} PolicyLaw(p: Policy, k: nat)
    requires k < |PolicyChecks(p)|
    ensures ValidatePolicy(p).None? <==> forall j :: 0 <= j < |PolicyChecks(p)| ==> PolicyChecks(p)[j].0
    ensures !PolicyChecks(p)[k].0 && (forall j :: 0 <= j < k ==> PolicyChecks(p)[j].0) ==>
      ValidatePolicy(p) == Some(PolicyChecks(p)[k].1)
  {
    var cs := PolicyChecks(p);
    assert (forall j :: 0 <= j < |cs| ==> cs[j].0) ==>
      cs[0].0 && cs[1].0 && cs[2].0 && cs[3].0 && cs[4].0 && cs[5].0 && cs[6].0 && cs[7].0 && cs[8].0;
    if forall j :: 0 <= j < k ==> cs[j].0 {
      assert (k > 0 ==> cs[0].0) && (k > 1 ==> cs[1].0) && (k > 2 ==> cs[2].0) && (k > 3 ==> cs[3].0)
        && (k > 4 ==> cs[4].0) && (k > 5 ==> cs[5].0) && (k > 6 ==> cs[6].0) && (k > 7 ==> cs[7].0);
    }
  }

  /** The reserve is its share of the capital, to the nearest cent, and the rest is deployable;
      the caps are the category and the family share of that, to the nearest cent. */
  lemma {:induction false} TermsLaw(p: Policy)
    ensures var t, reserve := TermsOf(p), Reserve(p);
      && reserve - 0.005 <= p.totalCapitalUsd * p.reservePct < reserve + 0.005
      && t.deployable == Round2(p.totalCapitalUsd) - reserve && t.policy == p
      && t.categoryLimit - 0.005 <= t.deployable * p.maxCategoryExposurePct < t.categoryLimit + 0.005
      && t.familyLimit - 0.005 <= t.deployable * p.maxFamilyExposurePct < t.familyLimit + 0.005
  {
    var d := Deployable(p);
    var reserve := p.totalCapitalUsd * p.reservePct;
    var category, family := d * p.maxCategoryExposurePct, d * p.maxFamilyExposurePct;
    RoundIsNear(reserve);
    RoundIsWhole(reserve);
    WholeDifference(p.totalCapitalUsd, Reserve(p));
    RoundIsNear(category);
    RoundIsNear(family);
    hide Round2;
  }

  /** Exposure is booked under the opportunity's own keys; one left out or empty counts as
      "unknown". */
  lemma {:induction false} KeyLaw(sc: Scored)
    ensures sc.op.categoryKey in {None, Some("")} ==> CategoryOf(sc) == "unknown"
    ensures sc.op.categoryKey !in {None, Some("")} ==> Some(CategoryOf(sc)) == sc.op.categoryKey
    ensures sc.op.familyKey in {None, Some("")} ==> FamilyOf(sc) == "unknown"
    ensures sc.op.familyKey !in {None, Some("")} ==> Some(FamilyOf(sc)) == sc.op.familyKey
  {}

  /** `capital` is the required capital, at most the per-item maximum, to the nearest cent. */
  ghost predicate AsksFor(op: Opportunity, p: Policy, capital: real) {
    exists dollars :: op.requiredCapitalUsd == Finite(dollars) && capital == Round2(MinR(dollars, p.maxPerItemUsd))
  }

  /** For a valid policy, every opportunity that passes all checks and scores at least the BUY_B
      minimum gets its required capital, capped per item and rounded, or the budget, its
      category's cap or its family's cap is allocated to the cent. */
  lemma {:induction false} GreedyOnFields(collation: string -> real, p: Policy, ops: seq<Opportunity>, i: nat)
    requires ValidatePolicy(p).None? && i < |ops|
    ensures |Allocate(collation, p, ops)| == |ops|
    ensures var t, lines := TermsOf(p), Allocate(collation, p, ops);
      var sc := lines[i].scored;
      PassesAll(sc.op, p) && sc.allocationScore >= p.minBuyBScore ==>
        || AsksFor(sc.op, p, lines[i].capital)
        || Total(lines) == t.deployable
        || CategoryTotal(lines, CategoryOf(sc)) == t.categoryLimit
        || FamilyTotal(lines, FamilyOf(sc)) == t.familyLimit
  {
    hide ScoreAll, Ranked, Lines, Round2, Deployable, ShareOf, Total, CategoryTotal, FamilyTotal, CategoryOf, FamilyOf;
    hide GovernanceFailureOf, PassesAll, Checks;
    var t, ranked := TermsOf(p), Ranked(collation, ScoreAll(ops));
    var lines := Lines(t, Start(t), ranked);
    var sc := ranked[i];
    TermsAreValid(p);
    if PassesAll(sc.op, p) && sc.allocationScore >= p.minBuyBScore {
      RequiredIsFinite(sc.op, p);
      GovernanceLaw(sc.op, p, 0);
      hide GovernanceFailureOf, PassesAll, Checks;
      GreedyIsMaximal(t, ranked, i);
      ConservationAndCaps(t, ranked, |ranked|);
      assert lines[..|ranked|] == lines;
    }
  }

  /** What an opportunity meets when its turn comes: nothing asked for to the cent, nothing left,
      or its category's or family's cap used up. */
  ghost predicate NoRoom(t: Terms, sc: Scored, above: seq<Line>) {
    || Round2(MinR(t.policy.maxPerItemUsd, SafeNumber(sc.op.requiredCapitalUsd))) <= 0.0
    || Total(above) >= t.deployable
    || CategoryTotal(above, CategoryOf(sc)) >= t.categoryLimit
    || FamilyTotal(above, FamilyOf(sc)) >= t.familyLimit
  }

  /** A line without capital is reported as limited exactly when it passed all checks and met no
      room; one that scored too low with room to spare is not. */
  lemma {:induction false} ExposureLaw(t: Terms, ops: seq<Scored>, i: nat)
    requires ValidTerms(t) && i < |ops|
    ensures var lines := Lines(t, Start(t), ops);
      lines[i].exposure == Limited <==> PassesAll(ops[i].op, t.policy) && NoRoom(t, ops[i], lines[..i])
  {
    hide Checks, PassesAll, GovernanceFailureOf;
    GovernanceLaw(ops[i].op, t.policy, 0);
    OneLineSpends(t, ops, i);
    ConservationAndCaps(t, ops, i);
    hide Lines, Round2, WholeCents, BooksAfter, Total, CategoryTotal, FamilyTotal, CategoryOf, FamilyOf, Allowed;
    AllowedIs(t, BooksAfter(t, ops, i), ops[i]);
  }

  /** What a line says of its opportunity: blocked exactly when governance fails; otherwise
      without capital for want of room, or of score, or funded under the tier of its status and
      score. */
  lemma {:induction false} TierLaw(t: Terms, ops: seq<Scored>, i: nat)
    requires ValidTerms(t) && i < |ops|
    ensures var line, sc := Lines(t, Start(t), ops)[i], ops[i];
      var score, status, p := sc.allocationScore, sc.op.executionStatus, t.policy;
      && (line.tier == TierBlocked <==> !PassesAll(sc.op, p)) && (line.exposure == Invalid <==> !PassesAll(sc.op, p))
      && (PassesAll(sc.op, p) && line.exposure == OK ==>
            && (line.tier == NoCapital <==> score < p.minBuyBScore)
            && (line.capital > 0.0 <==> score >= p.minBuyBScore))
      && (line.exposure == Limited ==> line.tier == NoCapital && line.capital == 0.0)
      && (line.capital > 0.0 ==>
            && (line.tier == ReviewAllocated <==> status == ReviewRequired)
            && (line.tier == BidMonitorAllocated <==> status == BidMonitorReady)
            && (status == AutoBuyReady ==>
                  && (line.tier == BuyAPlus <==> score >= p.minBuyAPlusScore)
                  && (line.tier == BuyA <==> p.minBuyAScore <= score < p.minBuyAPlusScore)
                  && (line.tier == BuyB <==> score < p.minBuyAScore && score < p.minBuyAPlusScore)))
  {
    hide Lines, Checks, PassesAll, BooksAfter;
    GovernanceLaw(ops[i].op, t.policy, 0);
    OneLineSpends(t, ops, i);
    DecideTiers(t, BooksAfter(t, ops, i), ops[i]);
  }

  lemma {:induction false} RequiredIsFinite(op: Opportunity, p: Policy)
    requires PassesAll(op, p)
    ensures op.requiredCapitalUsd.Finite?
  {
    assert Checks(op, p)[7].0;
  }

  lemma {:induction false} DecideTiers(t: Terms, b: Books, sc: Scored)
    ensures var line := Decide(t, b, sc);
      var score, status, p := sc.allocationScore, sc.op.executionStatus, t.policy;
      var passes := GovernanceFailureOf(sc.op, p).None?;
      && (line.tier == TierBlocked <==> !passes) && (line.exposure == Invalid <==> !passes)
      && (passes && line.exposure == OK ==>
            && (line.tier == NoCapital <==> score < p.minBuyBScore)
            && (line.capital > 0.0 <==> score >= p.minBuyBScore))
      && (line.exposure == Limited ==> line.tier == NoCapital && line.capital == 0.0)
      && (line.capital > 0.0 ==>
            && (line.tier == ReviewAllocated <==> status == ReviewRequired)
            && (line.tier == BidMonitorAllocated <==> status == BidMonitorReady)
            && (status == AutoBuyReady ==>
                  && (line.tier == BuyAPlus <==> score >= p.minBuyAPlusScore)
                  && (line.tier == BuyA <==> p.minBuyAScore <= score < p.minBuyAPlusScore)
                  && (line.tier == BuyB <==> score < p.minBuyAScore && score < p.minBuyAPlusScore)))
  {
    hide GovernanceFailureOf, Allowed;
  }

  /** The score is the weighted sum of profit per required dollar, return, velocity, confidence
      and execution boost, to six places. */
  lemma {:induction false} ScoreLaw(op: Opportunity, velocity: real, boost: real)
    requires op.requiredCapitalUsd.Finite? && op.requiredCapitalUsd.value > 0.0
    requires op.expectedProfitUsd.Finite? && op.expectedRoi.Finite?
    requires op.confidenceScore.Finite? && 0.0 <= op.confidenceScore.value <= 1.0
    requires op.expectedDaysToSale.None? ==> velocity == 0.5
    requires op.expectedDaysToSale.Some? ==> var days := op.expectedDaysToSale.value;
      velocity == if days <= 0.0 then 0.5 else if days > 60.0 then 0.35 else if days > 45.0 then 0.55
                  else if days > 30.0 then 0.7 else if days > 14.0 then 0.85 else 1.0
    requires op.executionStatus == AutoBuyReady ==> boost == 1.0
    requires op.executionStatus == BidMonitorReady ==> boost == 0.9
    requires op.executionStatus == ReviewRequired ==> boost == 0.7
    requires op.executionStatus !in {AutoBuyReady, BidMonitorReady, ReviewRequired} ==> boost == 0.0
    ensures var exact := 0.42 * (op.expectedProfitUsd.value / op.requiredCapitalUsd.value) + 0.28 * op.expectedRoi.value
                         + 0.13 * velocity + 0.12 * op.confidenceScore.value + 0.05 * boost;
      AllocationScore(op) - 0.0000005 <= exact < AllocationScore(op) + 0.0000005
  {
    var efficiency := op.expectedProfitUsd.value / op.requiredCapitalUsd.value;
    assert VelocityFactor(op.expectedDaysToSale) == velocity && ExecutionBoost(op.executionStatus) == boost;
    var exact := efficiency * 0.42 + op.expectedRoi.value * 0.28 + velocity * 0.13
      + op.confidenceScore.value * 0.12 + boost * 0.05;
    assert AllocationScore(op) == Round6(exact);
    hide AllocationScore;
    Round6IsNear(exact);
  }

  lemma {:induction false} Round6IsNear(x: real)
    ensures Round6(x) - 0.0000005 <= x < Round6(x) + 0.0000005
  {}

  // ---------- the allocator ----------

  datatype Allocation = Allocation(
    reserveUsd: real,
    deployableCapitalUsd: real,
    allocatedCapitalUsd: real,
    remainingCapitalUsd: real,
    lines: seq<Line>)

  lemma {:induction false} ClosingBalance(t: Terms, ops: seq<Scored>)
    requires ValidTerms(t)
    ensures var lines, left := Lines(t, Start(t), ops), BooksAfter(t, ops, |ops|).remaining;
      Round2(left) == left == t.deployable - Total(lines) && Round2(t.deployable - left) == Total(lines)
  {
    var lines, left := Lines(t, Start(t), ops), BooksAfter(t, ops, |ops|).remaining;
    ConservationAndCaps(t, ops, |ops|);
    assert lines[..|ops|] == lines;
    WholeSum(t.deployable, left);
  }

  method AllocateCapital(collation: string -> real, p: Policy, opportunities: seq<Opportunity>)
    returns (r: Result<Allocation, PolicyError>)
    ensures ValidatePolicy(p).Some? ==> r == Err(ValidatePolicy(p).value)
    ensures ValidatePolicy(p).None? ==>
      && r.Ok? && r.value.lines == Allocate(collation, p, opportunities)
      && r.value.reserveUsd == Reserve(p) && r.value.deployableCapitalUsd == Deployable(p)
      && r.value.allocatedCapitalUsd == Total(r.value.lines)
      && r.value.remainingCapitalUsd == Deployable(p) - Total(r.value.lines)
  {
    hide Decide, Lines, Round2, Ranked, ScoreAll, Total, Solvent, Spends, CategoryOf, FamilyOf;
    var invalid := ValidatePolicy(p);
    if invalid.Some? {
      return Err(invalid.value);
    }
    var t := TermsOf(p);
    TermsAreValid(p);
    var remaining := t.deployable;
    var category: map<string, real> := map[];
    var family: map<string, real> := map[];
    var scored := Ranked(collation, ScoreAll(opportunities));
    var lines: seq<Line> := [];
    for i := 0 to |scored|
      invariant lines == Lines(t, Start(t), scored)[..i]
      invariant Books(remaining, category, family) == BooksAfter(t, scored, i)
    {
      NextLine(t, scored, i);
      OneLineSpends(t, scored, i);
      var sc := scored[i];
      var line := Decide(t, Books(remaining, category, family), sc);
      if line.capital > 0.0 {
        remaining := Round2(remaining - line.capital);
        category := category[CategoryOf(sc) := Round2(Used(category, CategoryOf(sc)) + line.capital)];
        family := family[FamilyOf(sc) := Round2(Used(family, FamilyOf(sc)) + line.capital)];
      }
      lines := lines + [line];
    }
    assert Lines(t, Start(t), scored)[..|scored|] == Lines(t, Start(t), scored);
    ClosingBalance(t, scored);
    r := Ok(Allocation(Reserve(p), t.deployable, Round2(t.deployable - remaining), Round2(remaining), lines));
  }
}
