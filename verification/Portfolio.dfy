/**
 The all-or-nothing portfolio pass (src/services/acquisitionAllocator.ts). Decisions come
 in already rescored; they are sorted, and one pass funds a BUY in full or skips it.

 Each decision brings its own category and family limits, and the running amounts are
 rounded after every step, so the pass does not conserve money on every input.
 */
module Portfolio {
  import opened Common
  import opened Money

  datatype Status = BUY | WATCH | REVIEW | REJECT

  datatype Decision = Decision(
    id: string,
    category: string,
    family: string,
    status: Status,
    priorityScore: real,
    cashTurnProfit: Option<real>,
    deployableProfitUsd: real,
    estimatedRoi: Option<real>,
    riskScore: real,
    deployableCapitalUsd: real,
    maxCategoryCapitalPct: real,
    maxFamilyCapitalPct: real)

  datatype Block = NotBuy | NoDeployableCapital | InsufficientCash | CategoryLimit | FamilyLimit

  datatype Line = Line(decision: Decision, position: Option<nat>, blocks: seq<Block>)

  datatype Books = Books(
    remaining: real,
    spent: real,
    position: nat,
    skipped: nat,
    category: map<string, real>,
    family: map<string, real>)

  // ---------- ranking ----------

  function OrZero(x: Option<real>): real {
    if x.None? then 0.0 else x.value
  }

  /** The sort keys, each to be read as "larger first". */
  function SortKey(d: Decision): (key: seq<real>)
    ensures |key| == 5
  {
    [d.priorityScore, OrZero(d.cashTurnProfit), d.deployableProfitUsd, OrZero(d.estimatedRoi), -d.riskScore]
  }

  predicate LexAtLeast(a: seq<real>, b: seq<real>)
    requires |a| == |b|
  {
    a == [] || a[0] > b[0] || (a[0] == b[0] && LexAtLeast(a[1..], b[1..]))
  }

  predicate RanksFirst(a: Decision, b: Decision) {
    LexAtLeast(SortKey(a), SortKey(b))
  }

  function Insert(d: Decision, ds: seq<Decision>): seq<Decision> {
    if ds == [] || RanksFirst(d, ds[0]) then [d] + ds else [ds[0]] + Insert(d, ds[1..])
  }

  /** The stable sort. */
  function Ranked(ds: seq<Decision>): seq<Decision> {
    if ds == [] then [] else Insert(ds[0], Ranked(ds[1..]))
  }

  // ---------- the pass ----------

  function Required(d: Decision): real {
    MaxR(0.0, d.deployableCapitalUsd)
  }

  function LimitOf(cash: real, pct: real): real {
    cash * pct
  }

  function CategoryCap(cash: real, d: Decision): real {
    LimitOf(cash, d.maxCategoryCapitalPct)
  }

  function FamilyCap(cash: real, d: Decision): real {
    LimitOf(cash, d.maxFamilyCapitalPct)
  }

  function Used(m: map<string, real>, key: string): real {
    if key in m then m[key] else 0.0
  }

  function AllocationBlocks(cash: real, b: Books, d: Decision): seq<Block> {
    (if d.status != BUY then [NotBuy] else [])
    + (if Required(d) <= 0.0 then [NoDeployableCapital] else [])
    + (if b.remaining < Required(d) then [InsufficientCash] else [])
    + (if Used(b.category, d.category) + Required(d) > CategoryCap(cash, d) then [CategoryLimit] else [])
    + (if Used(b.family, d.family) + Required(d) > FamilyCap(cash, d) then [FamilyLimit] else [])
  }

  /** A BUY with something to pay. */
  predicate Paying(d: Decision) {
    d.status == BUY && d.deployableCapitalUsd > 0.0
  }

  /** Whether a decision could be paid for out of these books, within its own limits. */
  predicate Fits(cash: real, b: Books, d: Decision) {
    && Required(d) <= b.remaining
    && Used(b.category, d.category) + Required(d) <= CategoryCap(cash, d)
    && Used(b.family, d.family) + Required(d) <= FamilyCap(cash, d)
  }

  function Place(cash: real, b: Books, d: Decision): Line {
    var blocks := AllocationBlocks(cash, b, d);
    if d.status == BUY && blocks == [] then Line(d, Some(b.position), [])
    else Line(d, None, if d.status == BUY then blocks else [])
  }

  function Post(b: Books, line: Line): Books {
    var d := line.decision;
    if line.position.Some? then
      Books(Round2(b.remaining - Required(d)), Round2(b.spent + Required(d)), b.position + 1, b.skipped,
            b.category[d.category := Round2(Used(b.category, d.category) + Required(d))],
            b.family[d.family := Round2(Used(b.family, d.family) + Required(d))])
    else if d.status == BUY then b.(skipped := b.skipped + 1)
    else b
  }

  function Start(cash: real): Books {
    Books(cash, 0.0, 1, 0, map[], map[])
  }

  function BooksAfter(cash: real, ds: seq<Decision>): Books {
    if ds == [] then Start(cash)
    else
      var b := BooksAfter(cash, ds[..|ds| - 1]);
      Post(b, Place(cash, b, ds[|ds| - 1]))
  }

  function Lines(cash: real, ds: seq<Decision>): (lines: seq<Line>)
    ensures |lines| == |ds|
    ensures forall i :: 0 <= i < |ds| ==> lines[i].decision == ds[i]
  {
    if ds == [] then []
    else
      var front := ds[..|ds| - 1];
      Lines(cash, front) + [Place(cash, BooksAfter(cash, front), ds[|ds| - 1])]
  }

  datatype Result = Result(lines: seq<Line>, allocatedUsd: real, remainingUsd: real, skipped: nat)

  function Allocate(cash: real, ds: seq<Decision>): Result {
    var b := BooksAfter(cash, ds);
    Result(Lines(cash, ds), Round2(b.spent), Round2(b.remaining), b.skipped)
  }

  // ---------- what the lines add up to ----------

  function Paid(line: Line): real {
    if line.position.Some? then Required(line.decision) else 0.0
  }

  function PaidTo(own: string, key: string, line: Line): real {
    if own == key then Paid(line) else 0.0
  }

  ghost function TotalPaid(lines: seq<Line>): real {
    if lines == [] then 0.0 else TotalPaid(lines[..|lines| - 1]) + Paid(lines[|lines| - 1])
  }

  ghost function CategoryPaid(lines: seq<Line>, key: string): real {
    if lines == [] then 0.0
    else
      var last := lines[|lines| - 1];
      CategoryPaid(lines[..|lines| - 1], key) + PaidTo(last.decision.category, key, last)
  }

  ghost function FamilyPaid(lines: seq<Line>, key: string): real {
    if lines == [] then 0.0
    else
      var last := lines[|lines| - 1];
      FamilyPaid(lines[..|lines| - 1], key) + PaidTo(last.decision.family, key, last)
  }

  ghost function FundedCount(lines: seq<Line>): nat {
    if lines == [] then 0 else FundedCount(lines[..|lines| - 1]) + if lines[|lines| - 1].position.Some? then 1 else 0
  }

  ghost function BuyCount(ds: seq<Decision>): nat {
    if ds == [] then 0 else BuyCount(ds[..|ds| - 1]) + if ds[|ds| - 1].status == BUY then 1 else 0
  }

  ghost function HalfCentsPaid(lines: seq<Line>): nat {
    if lines == [] then 0
    else HalfCentsPaid(lines[..|lines| - 1]) + if HalfCent(Paid(lines[|lines| - 1])) then 1 else 0
  }

  // ---------- positions and counts ----------

  lemma {:induction false} LineAt(cash: real, ds: seq<Decision>, i: nat)
    requires i < |ds|
    ensures Lines(cash, ds)[i] == Place(cash, BooksAfter(cash, ds[..i]), ds[i])
    ensures Lines(cash, ds)[..i] == Lines(cash, ds[..i])
    ensures Lines(cash, ds)[..i + 1] == Lines(cash, ds[..i + 1])
  {
    hide Place, BooksAfter;
    var front := ds[..|ds| - 1];
    if i < |ds| - 1 {
      LineAt(cash, front, i);
      assert front[..i] == ds[..i] && front[..i + 1] == ds[..i + 1];
    } else {
      assert ds[..i + 1] == ds;
    }
  }

  lemma {:induction false} CountsAgree(cash: real, ds: seq<Decision>)
    ensures var b := BooksAfter(cash, ds);
      && b.position == 1 + FundedCount(Lines(cash, ds))
      && FundedCount(Lines(cash, ds)) + b.skipped == BuyCount(ds)
  {
    hide AllocationBlocks, Round2;
    if ds != [] {
      var front := ds[..|ds| - 1];
      CountsAgree(cash, front);
      assert Lines(cash, ds)[..|ds| - 1] == Lines(cash, front);
    }
  }

  /** Funded positions are 1, 2, 3, ... in order; funded and skipped together are the BUYs;
      only a BUY is funded, and no decision is changed. */
  lemma {:induction false} PositionsAndCounts(cash: real, ds: seq<Decision>, i: nat)
    requires i < |ds|
    ensures var lines := Lines(cash, ds);
      && lines[i].decision == ds[i]
      && (lines[i].position.Some? ==> ds[i].status == BUY && lines[i].position.value == 1 + FundedCount(lines[..i]))
      && FundedCount(lines) + BooksAfter(cash, ds).skipped == BuyCount(ds)
  {
    LineAt(cash, ds, i);
    CountsAgree(cash, ds);
    CountsAgree(cash, ds[..i]);
  }

  // ---------- conservation ----------

  ghost predicate BalancedBooks(cash: real, b: Books, halves: nat) {
    && WholeCents(b.spent) && WholeCents(b.remaining)
    && b.spent + b.remaining == cash + 0.01 * halves as real
  }

  lemma {:induction false} PaymentBalances(cash: real, b: Books, halves: nat, d: Decision)
    requires BalancedBooks(cash, b, halves)
    ensures BalancedBooks(cash, Post(b, Line(d, Some(b.position), [])), halves + if HalfCent(Required(d)) then 1 else 0)
  {
    hide WholeCents, Round2, HalfCent;
    SubtractRounded(b.remaining, Required(d));
    AddRounded(b.spent, Required(d));
    RoundIsWhole(b.remaining - Required(d));
    RoundIsWhole(b.spent + Required(d));
  }

  lemma {:induction false} BalanceOfWholeCash(cash: real, ds: seq<Decision>)
    requires WholeCents(cash)
    ensures BalancedBooks(cash, BooksAfter(cash, ds), HalfCentsPaid(Lines(cash, ds)))
  {
    hide WholeCents, Round2, HalfCent, AllocationBlocks;
    ZeroIsWhole();
    if ds != [] {
      var front, d := ds[..|ds| - 1], ds[|ds| - 1];
      BalanceOfWholeCash(cash, front);
      assert Lines(cash, ds)[..|ds| - 1] == Lines(cash, front);
      PaymentBalances(cash, BooksAfter(cash, front), HalfCentsPaid(Lines(cash, front)), d);
    }
  }

  /** For whole-cent cash the books are off by exactly one cent for each funded amount that
      ends in half a cent: it is taken off the balance rounded down and added rounded up. */
  lemma {:induction false} ConservedUpToHalfCents(cash: real, ds: seq<Decision>)
    requires WholeCents(cash)
    ensures var r := Allocate(cash, ds);
      r.allocatedUsd + r.remainingUsd == cash + 0.01 * HalfCentsPaid(r.lines) as real
  {
    BalanceOfWholeCash(cash, ds);
  }

  /** So for whole-cent cash nothing is lost or made up exactly when no BUY that has something
      to pay and fits the books it meets ends in half a cent. */
  lemma {:induction false} ConservedIff(cash: real, ds: seq<Decision>)
    requires WholeCents(cash)
    ensures var r := Allocate(cash, ds);
      r.allocatedUsd + r.remainingUsd == cash <==>
        forall i | 0 <= i < |ds| && Paying(ds[i]) && Fits(cash, BooksAfter(cash, ds[..i]), ds[i]) ::
          !HalfCent(Required(ds[i]))
  {
    ConservedUpToHalfCents(cash, ds);
    NoHalfCents(Lines(cash, ds));
    ZeroIsWhole();
    var lines := Lines(cash, ds);
    forall i | 0 <= i < |ds|
      ensures lines[i].position.Some? <==>
        Paying(ds[i]) && Fits(cash, BooksAfter(cash, ds[..i]), ds[i])
      ensures Paid(lines[i]) == if lines[i].position.Some? then Required(ds[i]) else 0.0
    {
      hide HalfCent, Round2, Place, Fits, BooksAfter;
      LineAt(cash, ds, i);
      FundedFits(cash, BooksAfter(cash, ds[..i]), ds[i]);
    }
    hide HalfCent, Round2, Lines, HalfCentsPaid, Fits, BooksAfter, Required;
  }

  /** A caller can tell beforehand: no BUY may end in half a cent. */
  lemma {:induction false} ConservedWithoutHalfCents(cash: real, ds: seq<Decision>)
    requires WholeCents(cash) && forall d <- ds :: d.status == BUY ==> !HalfCent(Required(d))
    ensures var r := Allocate(cash, ds);
      r.allocatedUsd + r.remainingUsd == cash
  {
    ConservedIff(cash, ds);
  }

  /** A dollar and one BUY of half a cent make a dollar and a cent. */
  lemma {:induction false} HalfCentIsMadeUp()
    ensures var ds := [Decision("1", "a", "a", BUY, 0.0, None, 0.0, None, 0.0, 0.005, 1.0, 1.0)];
      var r := Allocate(1.0, ds);
      r.allocatedUsd == 0.01 && r.remainingUsd == 1.0
  {
    var ds := [Decision("1", "a", "a", BUY, 0.0, None, 0.0, None, 0.0, 0.005, 1.0, 1.0)];
    assert ds[..0] == [];
    assert BooksAfter(1.0, []) == Start(1.0);
    assert Place(1.0, Start(1.0), ds[0]).position.Some?;
    assert Cents(0.995) == 100 && Cents(0.005) == 1 && Cents(1.0) == 100 && Cents(0.01) == 1;
  }

  lemma {:induction false} NoHalfCents(lines: seq<Line>)
    ensures HalfCentsPaid(lines) == 0 <==> forall i :: 0 <= i < |lines| ==> !HalfCent(Paid(lines[i]))
  {
    hide HalfCent;
    if lines != [] {
      var front := lines[..|lines| - 1];
      NoHalfCents(front);
      assert forall i :: 0 <= i < |front| ==> front[i] == lines[i];
    }
  }

  // ---------- whole-cent capitals ----------

  ghost predicate WholeCapitals(ds: seq<Decision>) {
    forall d <- ds :: WholeCents(Required(d))
  }

  /** With whole-cent capitals no running amount ever has to be rounded, except that the cash
      itself may be. */
  ghost predicate ExactBooks(cash: real, b: Books, lines: seq<Line>) {
    && b.spent == TotalPaid(lines) && WholeCents(b.spent)
    && Round2(b.remaining) == Round2(cash) - b.spent
    && (forall k :: Used(b.category, k) == CategoryPaid(lines, k) && WholeCents(Used(b.category, k)))
    && (forall k :: Used(b.family, k) == FamilyPaid(lines, k) && WholeCents(Used(b.family, k)))
  }

  lemma {:induction false} PaidGrows(lines: seq<Line>, line: Line)
    ensures TotalPaid(lines + [line]) == TotalPaid(lines) + Paid(line)
    ensures forall k ::
      CategoryPaid(lines + [line], k) == CategoryPaid(lines, k) + PaidTo(line.decision.category, k, line)
    ensures forall k :: FamilyPaid(lines + [line], k) == FamilyPaid(lines, k) + PaidTo(line.decision.family, k, line)
  {
    assert (lines + [line])[..|lines|] == lines;
  }

  lemma {:induction false} EntryElsewhere(m: map<string, real>, key: string, entry: real)
    ensures forall k {:trigger Used(m[key := entry], k)} {:trigger Used(m, k)} ::
      Used(m[key := entry], k) == if k == key then entry else Used(m, k)
  {}

  lemma {:induction false} EntryIsExact(m: map<string, real>, key: string, c: real)
    requires (forall k :: WholeCents(Used(m, k))) && WholeCents(c)
    ensures var after := m[key := Round2(Used(m, key) + c)];
      forall k :: WholeCents(Used(after, k)) && Used(after, k) == Used(m, k) + (if k == key then c else 0.0)
  {
    hide WholeCents, Round2;
    assert WholeCents(Used(m, key));
    WholeSum(Used(m, key), c);
    RoundIsWhole(Used(m, key) + c);
    EntryElsewhere(m, key, Round2(Used(m, key) + c));
  }

  lemma {:induction false} PaymentIsExact(cash: real, b: Books, lines: seq<Line>, d: Decision)
    requires ExactBooks(cash, b, lines) && WholeCents(Required(d))
    ensures ExactBooks(cash, Post(b, Line(d, Some(b.position), [])), lines + [Line(d, Some(b.position), [])])
  {
    hide WholeCents, Round2, TotalPaid, CategoryPaid, FamilyPaid;
    var c := Required(d);
    PaidGrows(lines, Line(d, Some(b.position), []));
    WholeDifference(b.remaining, c);
    RoundIsWhole(b.remaining - c);
    RoundOfRound(b.remaining - c);
    WholeSum(b.spent, c);
    EntryIsExact(b.category, d.category, c);
    EntryIsExact(b.family, d.family, c);
  }

  lemma {:induction false} RoundOfRound(x: real)
    ensures Round2(Round2(x)) == Round2(x)
  {
    RoundIsWhole(x);
  }

  lemma {:induction false} SkipIsExact(cash: real, b: Books, lines: seq<Line>, line: Line)
    requires ExactBooks(cash, b, lines) && line.position.None?
    ensures ExactBooks(cash, Post(b, line), lines + [line])
  {
    hide WholeCents, Round2, TotalPaid, CategoryPaid, FamilyPaid;
    PaidGrows(lines, line);
  }

  lemma {:induction false} BooksAreExact(cash: real, ds: seq<Decision>)
    requires WholeCapitals(ds)
    ensures ExactBooks(cash, BooksAfter(cash, ds), Lines(cash, ds))
  {
    hide WholeCents, AllocationBlocks, ExactBooks, Post;
    if ds == [] {
      StartIsExact(cash);
    } else {
      var front, d := ds[..|ds| - 1], ds[|ds| - 1];
      BooksAreExact(cash, front);
      var b := BooksAfter(cash, front);
      if Place(cash, b, d).position.Some? {
        PaymentIsExact(cash, b, Lines(cash, front), d);
      } else {
        SkipIsExact(cash, b, Lines(cash, front), Place(cash, b, d));
      }
    }
  }

  lemma {:induction false} StartIsExact(cash: real)
    ensures ExactBooks(cash, Start(cash), [])
  {
    ZeroIsWhole();
  }

  /** Whole-cent capitals are conserved to the cent for every cash amount, and what is
      reported as allocated is what the funded decisions require. */
  lemma {:induction false} WholeCapitalsConserved(cash: real, ds: seq<Decision>)
    requires WholeCapitals(ds)
    ensures var r := Allocate(cash, ds);
      r.allocatedUsd == TotalPaid(r.lines) && r.allocatedUsd + r.remainingUsd == Round2(cash)
  {
    BooksAreExact(cash, ds);
  }

  // ---------- own limits ----------

  /** A decision whose payment enters the maps at no less than its amount. */
  predicate RecordedInFull(d: Decision) {
    Required(d) <= Round2(Required(d))
  }

  /** The recorded entries cover what was paid. */
  ghost predicate Covered(b: Books, lines: seq<Line>) {
    && (forall k :: WholeCents(Used(b.category, k)) && CategoryPaid(lines, k) <= Used(b.category, k))
    && (forall k :: WholeCents(Used(b.family, k)) && FamilyPaid(lines, k) <= Used(b.family, k))
  }

  lemma {:induction false} EntryGrowsBy(m: map<string, real>, key: string, c: real)
    requires forall k :: WholeCents(Used(m, k))
    ensures var after := m[key := Round2(Used(m, key) + c)];
      forall k :: WholeCents(Used(after, k)) && Used(after, k) == Used(m, k) + (if k == key then Round2(c) else 0.0)
  {
    hide WholeCents, Round2;
    assert WholeCents(Used(m, key));
    AddRounded(Used(m, key), c);
    RoundIsWhole(Used(m, key) + c);
    EntryElsewhere(m, key, Round2(Used(m, key) + c));
  }

  lemma {:induction false} PaymentIsCovered(b: Books, lines: seq<Line>, d: Decision)
    requires Covered(b, lines) && RecordedInFull(d)
    ensures var line := Line(d, Some(b.position), []);
      Covered(Post(b, line), lines + [line])
  {
    hide WholeCents, Round2, CategoryPaid, FamilyPaid;
    PaidGrows(lines, Line(d, Some(b.position), []));
    EntryGrowsBy(b.category, d.category, Required(d));
    EntryGrowsBy(b.family, d.family, Required(d));
  }

  lemma {:induction false} SkipIsCovered(b: Books, lines: seq<Line>, line: Line)
    requires Covered(b, lines) && line.position.None?
    ensures Covered(Post(b, line), lines + [line])
  {
    hide WholeCents, CategoryPaid, FamilyPaid;
    PaidGrows(lines, line);
  }

  lemma {:induction false} BooksAreCovered(cash: real, ds: seq<Decision>)
    requires forall d <- ds :: Paying(d) ==> RecordedInFull(d)
    ensures Covered(BooksAfter(cash, ds), Lines(cash, ds))
  {
    hide WholeCents, AllocationBlocks, Post, RecordedInFull;
    if ds == [] {
      ZeroIsWhole();
    } else {
      hide Covered;
      var front, d := ds[..|ds| - 1], ds[|ds| - 1];
      BooksAreCovered(cash, front);
      var b := BooksAfter(cash, front);
      FundedFits(cash, b, d);
      if Place(cash, b, d).position.Some? {
        PaymentIsCovered(b, Lines(cash, front), d);
      } else {
        SkipIsCovered(b, Lines(cash, front), Place(cash, b, d));
      }
    }
  }

  /** A funded decision that takes its category or its family over its own limit. */
  ghost predicate OverLimit(cash: real, ds: seq<Decision>, i: nat) {
    && i < |ds| && Lines(cash, ds)[i].position.Some?
    && var upTo := Lines(cash, ds)[..i + 1];
       || CategoryPaid(upTo, ds[i].category) > CategoryCap(cash, ds[i])
       || FamilyPaid(upTo, ds[i].family) > FamilyCap(cash, ds[i])
  }

  /** A funded decision leaves its category and its family, itself included, within its own
      limits, if no payment ranked above it was rounded down when it was recorded. */
  lemma {:induction false} OwnLimitsKept(cash: real, ds: seq<Decision>, i: nat)
    requires i < |ds| && forall d <- ds[..i] :: Paying(d) ==> RecordedInFull(d)
    ensures !OverLimit(cash, ds, i)
  {
    hide WholeCents, Round2, BooksAfter, CategoryPaid, FamilyPaid, RecordedInFull;
    if Lines(cash, ds)[i].position.Some? {
      var before, d := Lines(cash, ds[..i]), ds[i];
      LineAt(cash, ds, i);
      BooksAreCovered(cash, ds[..i]);
      FundedFits(cash, BooksAfter(cash, ds[..i]), d);
      assert Lines(cash, ds)[..i + 1] == before + [Lines(cash, ds)[i]];
      PaidGrows(before, Lines(cash, ds)[i]);
    }
  }

  ghost predicate AllAsk(ds: seq<Decision>, amount: real) {
    forall d <- ds :: Paying(d) ==> Required(d) == amount
  }

  lemma {:induction false} LimitFromShare(cash: real, limit: real)
    requires cash > 0.0
    ensures LimitOf(cash, limit / cash) == limit
  {}

  /** Two decisions of one category that ask for the same amount, with a limit that the second
      reaches as recorded. */
  function Pair(amount: real): seq<Decision> {
    var cash := 4.0 * amount + 4.0;
    var pct := if cash == 0.0 then 0.0 else (Round2(amount) + amount) / cash;
    [Decision("1", "", "", BUY, 0.0, None, 0.0, None, 0.0, amount, pct, 1.0),
     Decision("2", "", "", BUY, 0.0, None, 0.0, None, 0.0, amount, pct, 1.0)]
  }

  lemma {:induction false} PairIsRanked(amount: real)
    ensures Ranked(Pair(amount)) == Pair(amount)
  {
    var ds := Pair(amount);
    assert ds[1..] == [ds[1]] && [ds[1]][1..] == [];
    assert Ranked([ds[1]]) == [ds[1]];
    LexTotal(SortKey(ds[0]), SortKey(ds[1]));
    assert SortKey(ds[0]) == SortKey(ds[1]);
  }

  lemma {:induction false} PairFunded(amount: real)
    requires amount > 0.0
    ensures var cash, ds := 4.0 * amount + 4.0, Pair(amount);
      && CategoryCap(cash, ds[1]) == Round2(amount) + amount
      && Lines(cash, ds)[0].position.Some? && Lines(cash, ds)[1].position.Some?
  {
    var cash, ds := 4.0 * amount + 4.0, Pair(amount);
    var c := Round2(amount);
    RoundIsNear(amount);
    RoundMonotone(0.0, amount);
    RoundIsNear(cash - amount);
    ZeroIsWhole();
    LimitFromShare(cash, c + amount);
    assert LimitOf(cash, 1.0) == cash;
    hide Round2, HalfCent, LimitOf, Pair;
    assert CategoryCap(cash, ds[0]) == c + amount && FamilyCap(cash, ds[0]) == cash;
    assert ds[..0] == [] && ds[..1] == [ds[0]] && [ds[0]][..0] == [];
    LineAt(cash, ds, 0);
    LineAt(cash, ds, 1);
    FundedFits(cash, Start(cash), ds[0]);
    FitsUntouched(cash, Start(cash), ds[0]);
    var b := BooksAfter(cash, [ds[0]]);
    assert b == Post(Start(cash), Place(cash, Start(cash), ds[0]));
    assert b.remaining == Round2(cash - amount) && Used(b.category, "") == c && Used(b.family, "") == c;
    FundedFits(cash, b, ds[1]);
  }

  lemma {:induction false} PairPaid(lines: seq<Line>, amount: real)
    requires |lines| == 2 && lines[0].decision.category == lines[1].decision.category
    requires Paid(lines[0]) == Paid(lines[1]) == amount
    ensures CategoryPaid(lines, lines[0].decision.category) == amount + amount
  {
    assert lines == [] + [lines[0]] + [lines[1]];
    PaidGrows([], lines[0]);
    PaidGrows([] + [lines[0]], lines[1]);
  }

  lemma {:induction false} PairOverLimit(amount: real)
    requires amount > 0.0 && Round2(amount) < amount
    ensures OverLimit(4.0 * amount + 4.0, Pair(amount), 1) && AllAsk(Pair(amount), amount)
  {
    var cash, ds := 4.0 * amount + 4.0, Pair(amount);
    var lines := Lines(cash, ds);
    PairFunded(amount);
    hide Round2, CategoryCap, FamilyCap;
    assert lines[..2] == lines;
    PairPaid(lines, amount);
  }

  /** Payments of an amount keep all own limits, in every ranked portfolio and for all cash,
      exactly when rounding does not lower the amount. */
  lemma {:induction false} OwnLimitsKeptIff(amount: real)
    requires amount > 0.0
    ensures (forall cash: real, ds: seq<Decision>, i: nat ::
               cash >= 0.0 && Ranked(ds) == ds && AllAsk(ds, amount) ==> !OverLimit(cash, ds, i))
       <==> amount <= Round2(amount)
  {
    hide Round2, OverLimit, Ranked, Pair;
    if amount <= Round2(amount) {
      forall cash: real, ds: seq<Decision>, i: nat | AllAsk(ds, amount)
        ensures !OverLimit(cash, ds, i)
      {
        OverLimitInside(cash, ds, i);
        if i < |ds| {
          assert forall d <- ds[..i] :: d in ds;
          OwnLimitsKept(cash, ds, i);
        }
      }
    } else {
      PairIsRanked(amount);
      PairOverLimit(amount);
    }
  }

  lemma {:induction false} OverLimitInside(cash: real, ds: seq<Decision>, i: nat)
    ensures OverLimit(cash, ds, i) ==> i < |ds|
  {}

  /** A dollar and two BUYs of 0.004 under a limit of half a cent: both are funded, for 0.008. */
  lemma {:induction false} FractionsBreakLimits()
    ensures var d := Decision("1", "a", "a", BUY, 0.0, None, 0.0, None, 0.0, 0.004, 0.005, 1.0);
      OverLimit(1.0, [d, d.(id := "2")], 1) && CategoryCap(1.0, d) == 0.005
  {
    var d := Decision("1", "a", "a", BUY, 0.0, None, 0.0, None, 0.0, 0.004, 0.005, 1.0);
    var ds := [d, d.(id := "2")];
    assert ds[..0] == [] && ds[..1] == [d] && [d][..0] == [];
    assert CategoryCap(1.0, d) == 0.005 && FamilyCap(1.0, d) == 1.0;
    assert Cents(0.004) == 0 && Cents(0.996) == 100;
    LineAt(1.0, ds, 0);
    LineAt(1.0, ds, 1);
    FundedFits(1.0, Start(1.0), d);
    var b := BooksAfter(1.0, [d]);
    assert b == Post(Start(1.0), Place(1.0, Start(1.0), d));
    assert b.remaining == 1.0 && Used(b.category, "a") == 0.0 && Used(b.family, "a") == 0.0;
    FundedFits(1.0, b, ds[1]);
    var lines := Lines(1.0, ds);
    assert lines[..2] == lines;
    PairPaid(lines, 0.004);
  }

  /** A decision is funded exactly when it is a BUY with something to pay that fits. */
  lemma {:induction false} FundedFits(cash: real, b: Books, d: Decision)
    ensures Place(cash, b, d).position.Some? <==> Paying(d) && Fits(cash, b, d)
    ensures Place(cash, b, d).decision == d
  {}

  // ---------- maximality ----------

  ghost predicate WholeEntries(b: Books) {
    (forall k :: WholeCents(Used(b.category, k))) && (forall k :: WholeCents(Used(b.family, k)))
  }

  ghost predicate Spends(b: Books, c: Books) {
    && c.remaining <= b.remaining
    && (forall k :: Used(b.category, k) <= Used(c.category, k))
    && (forall k :: Used(b.family, k) <= Used(c.family, k))
  }

  lemma {:induction false} BalanceFalls(r: real, c: real)
    requires c > 0.0 && (WholeCents(r) || WholeCents(c))
    ensures Round2(r - c) <= r
  {
    if WholeCents(r) {
      RoundMonotone(r - c, r);
    } else {
      RoundIsNear(r - c);
    }
  }

  lemma {:induction false} EntryRises(m: map<string, real>, key: string, c: real)
    requires (forall k :: WholeCents(Used(m, k))) && c >= 0.0
    ensures var after := m[key := Round2(Used(m, key) + c)];
      (forall k :: WholeCents(Used(after, k))) && (forall k :: Used(m, k) <= Used(after, k))
  {
    hide WholeCents, Round2;
    assert WholeCents(Used(m, key));
    RoundMonotone(Used(m, key), Used(m, key) + c);
    RoundIsWhole(Used(m, key) + c);
    WholeMeans(Used(m, key));
    EntryElsewhere(m, key, Round2(Used(m, key) + c));
  }

  lemma {:induction false} PlacingKeepsEntries(cash: real, b: Books, d: Decision)
    requires WholeEntries(b)
    ensures var c := Post(b, Place(cash, b, d));
      && WholeEntries(c)
      && (forall k :: Used(b.category, k) <= Used(c.category, k))
      && (forall k :: Used(b.family, k) <= Used(c.family, k))
  {
    hide WholeCents, Round2, Fits, AllocationBlocks;
    FundedFits(cash, b, d);
    if Place(cash, b, d).position.Some? {
      EntryRises(b.category, d.category, Required(d));
      EntryRises(b.family, d.family, Required(d));
    }
  }

  lemma {:induction false} PlacingSpends(cash: real, b: Books, d: Decision)
    requires WholeEntries(b) && (WholeCents(b.remaining) || WholeCents(Required(d)))
    ensures var c := Post(b, Place(cash, b, d));
      Spends(b, c) && (WholeCents(b.remaining) ==> WholeCents(c.remaining))
  {
    hide WholeCents, Round2, Fits, WholeEntries, AllocationBlocks, Used;
    FundedFits(cash, b, d);
    PlacingKeepsEntries(cash, b, d);
    if Place(cash, b, d).position.Some? {
      BalanceFalls(b.remaining, Required(d));
      RoundIsWhole(b.remaining - Required(d));
    }
  }

  lemma {:induction false} SpendsTwice(a: Books, b: Books, c: Books)
    requires Spends(a, b) && Spends(b, c)
    ensures Spends(a, c)
  {
    forall k
      ensures Used(a.category, k) <= Used(c.category, k) && Used(a.family, k) <= Used(c.family, k)
    {
      assert Used(a.category, k) <= Used(b.category, k) <= Used(c.category, k);
      assert Used(a.family, k) <= Used(b.family, k) <= Used(c.family, k);
    }
  }

  lemma {:induction false} EntriesStayWhole(cash: real, ds: seq<Decision>)
    ensures WholeEntries(BooksAfter(cash, ds))
    ensures forall k :: 0.0 <= Used(BooksAfter(cash, ds).category, k) && 0.0 <= Used(BooksAfter(cash, ds).family, k)
  {
    hide WholeCents, Place, Post;
    if ds == [] {
      ZeroIsWhole();
    } else {
      var b := BooksAfter(cash, ds[..|ds| - 1]);
      EntriesStayWhole(cash, ds[..|ds| - 1]);
      hide WholeEntries;
      PlacingKeepsEntries(cash, b, ds[|ds| - 1]);
      forall k
        ensures 0.0 <= Used(BooksAfter(cash, ds).category, k) && 0.0 <= Used(BooksAfter(cash, ds).family, k)
      {
        assert 0.0 <= Used(b.category, k) && 0.0 <= Used(b.family, k);
      }
    }
  }

  lemma {:induction false} SpendsNothing(b: Books)
    ensures Spends(b, b)
  {}

  /** From a whole-cent balance on, and with whole-cent capitals from the start, the books only
      ever spend. */
  lemma {:induction false} BooksOnlySpend(cash: real, ds: seq<Decision>, i: nat)
    requires i <= |ds| && (WholeCents(BooksAfter(cash, ds[..i]).remaining) || WholeCapitals(ds))
    ensures Spends(BooksAfter(cash, ds[..i]), BooksAfter(cash, ds))
    ensures WholeCents(BooksAfter(cash, ds[..i]).remaining) ==> WholeCents(BooksAfter(cash, ds).remaining)
  {
    hide WholeCents, WholeEntries, Spends, Place, Post;
    if i == |ds| {
      assert ds[..i] == ds;
      SpendsNothing(BooksAfter(cash, ds));
    } else {
      var front, last := ds[..|ds| - 1], ds[|ds| - 1];
      assert front[..i] == ds[..i];
      BooksOnlySpend(cash, front, i);
      EntriesStayWhole(cash, front);
      PlacingSpends(cash, BooksAfter(cash, front), last);
      SpendsTwice(BooksAfter(cash, ds[..i]), BooksAfter(cash, front), BooksAfter(cash, ds));
    }
  }

  /** Books that nothing has been paid from. */
  ghost predicate Untouched(cash: real, b: Books) {
    b.remaining == cash && b.category == map[] && b.family == map[]
  }

  /** After the first payment the balance is in whole cents, at most the rounded cash, and less
      than cash that ended in half a cent. */
  ghost predicate Settled(cash: real, b: Books) {
    WholeCents(b.remaining) && b.remaining <= Round2(cash) && (HalfCent(cash) ==> b.remaining < cash)
  }

  lemma {:induction false} FirstPaymentSettles(cash: real, c: real)
    requires c > 0.0
    ensures WholeCents(Round2(cash - c)) && Round2(cash - c) <= Round2(cash)
    ensures HalfCent(cash) ==> Round2(cash - c) < cash
  {
    RoundIsWhole(cash - c);
    RoundMonotone(cash - c, cash);
    if HalfCent(cash) {
      assert 100.0 * (cash - c) + 0.5 < Cents(cash) as real;
    }
  }

  lemma {:induction false} UntouchedOrSettled(cash: real, ds: seq<Decision>)
    ensures Untouched(cash, BooksAfter(cash, ds)) || Settled(cash, BooksAfter(cash, ds))
  {
    hide WholeCents, Round2, HalfCent, Fits, WholeEntries;
    if ds != [] {
      var b, d := BooksAfter(cash, ds[..|ds| - 1]), ds[|ds| - 1];
      UntouchedOrSettled(cash, ds[..|ds| - 1]);
      FundedFits(cash, b, d);
      if Place(cash, b, d).position.Some? {
        FirstPaymentSettles(cash, Required(d));
        if Settled(cash, b) {
          BalanceFalls(b.remaining, Required(d));
          RoundIsWhole(b.remaining - Required(d));
        }
      }
    }
  }

  /** A decision that this much cash may miss: it asks for more than the cash but not more than
      the rounded cash, and its own limits allow it. */
  predicate CanBeMissed(cash: real, d: Decision) {
    && d.status == BUY && cash < Required(d) <= Round2(cash) && !HalfCent(cash)
    && Required(d) <= CategoryCap(cash, d) && Required(d) <= FamilyCap(cash, d)
  }

  /** A skipped BUY with something to pay that could still be added to the final allocation. */
  ghost predicate Missed(cash: real, ds: seq<Decision>, i: nat) {
    && i < |ds| && Paying(ds[i])
    && Lines(cash, ds)[i].position.None? && Fits(cash, BooksAfter(cash, ds), ds[i])
  }

  lemma {:induction false} FitsLater(cash: real, b: Books, later: Books, d: Decision)
    requires Spends(b, later) && Fits(cash, later, d)
    ensures Fits(cash, b, d)
  {}

  lemma {:induction false} FitsUntouched(cash: real, b: Books, d: Decision)
    requires Untouched(cash, b)
    ensures Fits(cash, b, d) <==>
      Required(d) <= cash && Required(d) <= CategoryCap(cash, d) && Required(d) <= FamilyCap(cash, d)
  {}

  /** A skipped BUY with something to pay could not be added to the final allocation either -
      it would overdraw the cash or break its own category or family limit - unless the cash
      may miss it, and then only among capitals with fractions of a cent. */
  lemma {:induction false} SkippedCannotBeAdded(cash: real, ds: seq<Decision>, i: nat)
    requires i < |ds| && (!CanBeMissed(cash, ds[i]) || WholeCapitals(ds))
    requires Paying(ds[i]) && Lines(cash, ds)[i].position.None?
    ensures !Fits(cash, BooksAfter(cash, ds), ds[i])
  {
    hide WholeCents, BooksAfter, Place, Lines, WholeCapitals, Fits, Spends, Round2, HalfCent;
    hide Untouched, Required, CategoryCap, FamilyCap;
    var b, final, d := BooksAfter(cash, ds[..i]), BooksAfter(cash, ds), ds[i];
    LineAt(cash, ds, i);
    FundedFits(cash, b, d);
    UntouchedOrSettled(cash, ds[..i]);
    UntouchedOrSettled(cash, ds);
    if Fits(cash, final, d) {
      if WholeCents(b.remaining) || WholeCapitals(ds) {
        BooksOnlySpend(cash, ds, i);
        FitsLater(cash, b, final, d);
        assert false;
      } else {
        FitsUntouched(cash, b, d);
        EntriesStayWhole(cash, ds);
        FitsMeans(cash, final, d);
        if Untouched(cash, final) {
          FitsUntouched(cash, final, d);
        }
        assert false;
      }
    }
  }

  lemma {:induction false} FitsMeans(cash: real, b: Books, d: Decision)
    requires Fits(cash, b, d) && 0.0 <= Used(b.category, d.category) && 0.0 <= Used(b.family, d.family)
    ensures Required(d) <= b.remaining && Required(d) <= CategoryCap(cash, d) && Required(d) <= FamilyCap(cash, d)
  {}

  /** A payment that lifts the balance to the rounded cash. */
  function Lift(cash: real, d: Decision): Decision {
    Decision("", d.category + "*", d.family + "*", BUY, d.priorityScore - 1.0, None, 0.0, None, 0.0,
             0.005 - (Round2(cash) - cash), 1.0, 1.0)
  }

  lemma {:induction false} LiftLifts(cash: real)
    requires cash >= 0.0 && cash < Round2(cash) && !HalfCent(cash)
    ensures var c := 0.005 - (Round2(cash) - cash);
      0.0 < c <= cash && Round2(cash - c) == Round2(cash)
  {
    var n := Cents(cash);
    RoundIsNear(cash);
    assert n >= 1;
    assert 100.0 * (cash - (0.005 - (Round2(cash) - cash))) + 0.5 == n as real;
  }

  /** Such a decision is missed when the right small payment follows it. */
  lemma {:induction false} MissedBeforeLift(cash: real, d: Decision)
    requires cash >= 0.0 && CanBeMissed(cash, d)
    ensures Missed(cash, [d, Lift(cash, d)], 0) && Ranked([d, Lift(cash, d)]) == [d, Lift(cash, d)]
  {
    hide Round2, HalfCent, LexAtLeast;
    var small, ds := Lift(cash, d), [d, Lift(cash, d)];
    LiftLifts(cash);
    RankedPair(d, small);
    assert ds[..1] == [d] && [d][..0] == [] && ds[..0] == [];
    var b := Start(cash);
    LineAt(cash, ds, 0);
    FundedFits(cash, b, d);
    FitsUntouched(cash, b, d);
    var b1 := BooksAfter(cash, [d]);
    assert b1 == b.(skipped := 1);
    FundedFits(cash, b1, small);
    FitsUntouched(cash, b1, small);
    assert LimitOf(cash, 1.0) == cash;
    var b2 := BooksAfter(cash, ds);
    assert b2 == Post(b1, Place(cash, b1, small));
    assert |small.category| == |d.category| + 1 && |small.family| == |d.family| + 1;
    assert b2.remaining == Round2(cash) && Used(b2.category, d.category) == 0.0 && Used(b2.family, d.family) == 0.0;
  }

  lemma {:induction false} RankedPair(a: Decision, b: Decision)
    requires a.priorityScore > b.priorityScore
    ensures Ranked([a, b]) == [a, b]
  {
    assert [a, b][1..] == [b] && [b][1..] == [];
    assert Ranked([b]) == [b];
    assert SortKey(a)[0] > SortKey(b)[0];
  }

  /** Exactly such decisions can be missed, each in some ranked portfolio. */
  lemma {:induction false} MissedIff(cash: real, d: Decision)
    requires cash >= 0.0
    ensures CanBeMissed(cash, d) <==>
      exists ds: seq<Decision>, i: nat :: i < |ds| && ds[i] == d && Ranked(ds) == ds && Missed(cash, ds, i)
  {
    hide Missed, CanBeMissed, Ranked;
    if CanBeMissed(cash, d) {
      MissedBeforeLift(cash, d);
      assert [d, Lift(cash, d)][0] == d;
    }
    forall ds: seq<Decision>, i: nat | i < |ds| && Missed(cash, ds, i) && ds[i] == d
      ensures CanBeMissed(cash, d)
    {
      MissedMeans(cash, ds, i);
    }
  }

  lemma {:induction false} MissedMeans(cash: real, ds: seq<Decision>, i: nat)
    requires Missed(cash, ds, i)
    ensures i < |ds| && CanBeMissed(cash, ds[i])
  {
    hide CanBeMissed, Fits, Lines, BooksAfter;
    if !CanBeMissed(cash, ds[i]) {
      SkippedCannotBeAdded(cash, ds, i);
    }
  }

  /** Cash that rounding does not raise, and cash that ends in half a cent, never misses a
      decision, whatever the portfolio; all other cash does in some portfolio. */
  lemma {:induction false} NothingMissedIff(cash: real)
    requires cash >= 0.0
    ensures (forall ds: seq<Decision>, i: nat :: !Missed(cash, ds, i)) <==> Round2(cash) <= cash || HalfCent(cash)
  {
    hide Missed, HalfCent, Round2;
    if Round2(cash) <= cash || HalfCent(cash) {
      forall ds: seq<Decision>, i: nat
        ensures !Missed(cash, ds, i)
      {
        if Missed(cash, ds, i) {
          MissedMeans(cash, ds, i);
          assert false;
        }
      }
    } else {
      var d := Decision("", "", "", BUY, 0.0, None, 0.0, None, 0.0, Round2(cash), 2.0, 2.0);
      RoundedAtMostTwice(cash);
      MissedBeforeLift(cash, d);
    }
  }

  lemma {:induction false} RoundedAtMostTwice(cash: real)
    requires cash >= 0.0
    ensures 0.0 <= Round2(cash) <= LimitOf(cash, 2.0)
  {
    assert LimitOf(cash, 2.0) == cash + cash;
    RoundMonotone(0.0, cash);
    if cash < 0.005 {
      assert Cents(cash) == 0;
    } else {
      RoundIsNear(cash);
    }
  }

  /** With fractional cents on both sides it can fail: a small payment rounds the balance up. */
  lemma {:induction false} FractionalCashCanBeAdded()
    ensures exists cash: real, ds: seq<Decision>, i: nat ::
      && cash >= 0.0 && i < |ds| && ds[i].status == BUY && ds[i].deployableCapitalUsd > 0.0
      && Lines(cash, ds)[i].position.None? && Fits(cash, BooksAfter(cash, ds), ds[i])
  {
    var large := Decision("1", "a", "a", BUY, 2.0, None, 0.0, None, 0.0, 0.998, 2.0, 2.0);
    var small := Decision("2", "b", "b", BUY, 1.0, None, 0.0, None, 0.0, 0.0001, 2.0, 2.0);
    var ds := [large, small];
    assert ds[..1] == [large] && [large][..0] == [];
    var b1 := BooksAfter(0.996, [large]);
    assert BooksAfter(0.996, []) == Start(0.996);
    assert InsufficientCash in AllocationBlocks(0.996, Start(0.996), large);
    assert b1 == Start(0.996).(skipped := 1);
    var b2 := BooksAfter(0.996, ds);
    assert Place(0.996, b1, small).position.Some?;
    assert Cents(0.9959) == 100;
    assert b2.remaining == 1.0 && Used(b2.category, "a") == 0.0;
    LineAt(0.996, ds, 0);
    assert ds[..0] == [];
    assert Lines(0.996, ds)[0].position.None?;
    assert Fits(0.996, b2, ds[0]);
  }

  // ---------- the ranking ----------

  lemma {:induction false} LexTotal(a: seq<real>, b: seq<real>)
    requires |a| == |b|
    ensures LexAtLeast(a, b) || LexAtLeast(b, a)
    ensures LexAtLeast(a, b) && LexAtLeast(b, a) <==> a == b
  {
    if a != [] {
      LexTotal(a[1..], b[1..]);
      assert a == [a[0]] + a[1..] && b == [b[0]] + b[1..];
    }
  }

  lemma {:induction false} LexTransitive(a: seq<real>, b: seq<real>, c: seq<real>)
    requires |a| == |b| == |c| && LexAtLeast(a, b) && LexAtLeast(b, c)
    ensures LexAtLeast(a, c)
  {
    if a != [] && a[0] == b[0] == c[0] {
      LexTransitive(a[1..], b[1..], c[1..]);
    }
  }

  ghost predicate IsRanked(ds: seq<Decision>) {
    forall i, j :: 0 <= i < j < |ds| ==> RanksFirst(ds[i], ds[j])
  }

  /** The decisions with a given key, in their order of appearance. */
  function WithKey(ds: seq<Decision>, key: seq<real>): seq<Decision> {
    if ds == [] then []
    else if SortKey(ds[0]) == key then [ds[0]] + WithKey(ds[1..], key) else WithKey(ds[1..], key)
  }

  lemma {:induction false} InsertRanks(d: Decision, ds: seq<Decision>)
    requires IsRanked(ds)
    ensures IsRanked(Insert(d, ds)) && multiset(Insert(d, ds)) == multiset{d} + multiset(ds)
    ensures forall x :: x in Insert(d, ds) ==> x == d || x in ds
  {
    hide LexAtLeast, SortKey;
    if ds == [] {
    } else if RanksFirst(d, ds[0]) {
      forall j | 0 <= j < |ds|
        ensures RanksFirst(d, ds[j])
      {
        if j > 0 {
          assert RanksFirst(ds[0], ds[j]);
          LexTransitive(SortKey(d), SortKey(ds[0]), SortKey(ds[j]));
        }
      }
    } else {
      LexTotal(SortKey(d), SortKey(ds[0]));
      InsertRanks(d, ds[1..]);
      assert ds == [ds[0]] + ds[1..];
      var rest := Insert(d, ds[1..]);
      forall j | 0 <= j < |rest|
        ensures RanksFirst(ds[0], rest[j])
      {
        assert rest[j] in rest;
        if rest[j] != d {
          var k :| 0 <= k < |ds[1..]| && ds[1..][k] == rest[j];
          assert RanksFirst(ds[0], ds[k + 1]);
        }
      }
    }
  }

  lemma {:induction false} InsertKeepsTies(d: Decision, ds: seq<Decision>, key: seq<real>)
    ensures WithKey(Insert(d, ds), key) == if SortKey(d) == key then [d] + WithKey(ds, key) else WithKey(ds, key)
  {
    hide SortKey, LexAtLeast;
    if ds == [] || RanksFirst(d, ds[0]) {
      assert ([d] + ds)[1..] == ds;
    } else {
      LexTotal(SortKey(d), SortKey(ds[0]));
      InsertKeepsTies(d, ds[1..], key);
      var rest := Insert(d, ds[1..]);
      assert ([ds[0]] + rest)[1..] == rest;
    }
  }

  /** The ranking is ordered by the five keys, has exactly the decisions it was given, and
      leaves decisions with equal keys in the order they came. */
  lemma {:induction false} RankedIsStableSort(ds: seq<Decision>)
    ensures IsRanked(Ranked(ds)) && multiset(Ranked(ds)) == multiset(ds)
    ensures forall key :: WithKey(Ranked(ds), key) == WithKey(ds, key)
  {
    if ds != [] {
      RankedIsStableSort(ds[1..]);
      InsertRanks(ds[0], Ranked(ds[1..]));
      assert ds == [ds[0]] + ds[1..];
      forall key
        ensures WithKey(Ranked(ds), key) == WithKey(ds, key)
      {
        InsertKeepsTies(ds[0], Ranked(ds[1..]), key);
      }
    }
  }

  // ---------- what the results say of the fields ----------

  /** The five keys, each only when all before it are equal: priority, cash-turn profit,
      deployable profit and return, larger first; then risk, smaller first. Absent is zero. */
  predicate ServedBefore(a: Decision, b: Decision) {
    var turnA, turnB := (if a.cashTurnProfit.Some? then a.cashTurnProfit.value else 0.0),
                        (if b.cashTurnProfit.Some? then b.cashTurnProfit.value else 0.0);
    var roiA, roiB := (if a.estimatedRoi.Some? then a.estimatedRoi.value else 0.0),
                      (if b.estimatedRoi.Some? then b.estimatedRoi.value else 0.0);
    || a.priorityScore > b.priorityScore
    || (a.priorityScore == b.priorityScore &&
        (|| turnA > turnB
         || (turnA == turnB &&
             (|| a.deployableProfitUsd > b.deployableProfitUsd
              || (a.deployableProfitUsd == b.deployableProfitUsd &&
                  (roiA > roiB || (roiA == roiB && a.riskScore <= b.riskScore)))))))
  }

  lemma {:induction false} LexStep(x: real, a: seq<real>, y: real, b: seq<real>)
    requires |a| == |b|
    ensures LexAtLeast([x] + a, [y] + b) <==> x > y || (x == y && LexAtLeast(a, b))
  {
    assert ([x] + a)[1..] == a && ([y] + b)[1..] == b;
  }

  lemma {:induction false} RanksFirstMeans(a: Decision, b: Decision)
    ensures RanksFirst(a, b) <==> ServedBefore(a, b)
  {
    var p, q := SortKey(a), SortKey(b);
    hide LexAtLeast;
    LexStep(p[4], [], q[4], []);
    LexStep(p[3], [p[4]], q[3], [q[4]]);
    LexStep(p[2], [p[3], p[4]], q[2], [q[3], q[4]]);
    LexStep(p[1], [p[2], p[3], p[4]], q[1], [q[2], q[3], q[4]]);
    LexStep(p[0], [p[1], p[2], p[3], p[4]], q[0], [q[1], q[2], q[3], q[4]]);
    assert [p[4]] + [] == [p[4]] && [q[4]] + [] == [q[4]];
    assert [p[3]] + [p[4]] == [p[3], p[4]] && [q[3]] + [q[4]] == [q[3], q[4]];
    assert [p[2]] + [p[3], p[4]] == [p[2], p[3], p[4]] && [q[2]] + [q[3], q[4]] == [q[2], q[3], q[4]];
    assert [p[1]] + [p[2], p[3], p[4]] == [p[1], p[2], p[3], p[4]];
    assert [q[1]] + [q[2], q[3], q[4]] == [q[1], q[2], q[3], q[4]];
    assert p == [p[0]] + [p[1], p[2], p[3], p[4]] && q == [q[0]] + [q[1], q[2], q[3], q[4]];
    LexEmpty();
  }

  lemma {:induction false} LexEmpty()
    ensures LexAtLeast([], [])
  {}

  /** Every decision is served before all later ones of the ranking. */
  lemma {:induction false} RankedOnFields(ds: seq<Decision>, i: nat, j: nat)
    requires i < j < |ds|
    ensures |Ranked(ds)| == |ds| && ServedBefore(Ranked(ds)[i], Ranked(ds)[j])
  {
    RankedIsStableSort(ds);
    assert |multiset(Ranked(ds))| == |Ranked(ds)| && |multiset(ds)| == |ds|;
    assert RanksFirst(Ranked(ds)[i], Ranked(ds)[j]);
    RanksFirstMeans(Ranked(ds)[i], Ranked(ds)[j]);
  }

  /** What was recorded under a category or a family: the payments, each rounded. */
  ghost function Recorded(lines: seq<Line>, category: bool, key: string): real {
    if lines == [] then 0.0
    else
      var last := lines[|lines| - 1];
      var own := if category then last.decision.category else last.decision.family;
      var paid := if last.position.Some? && own == key then Round2(last.decision.deployableCapitalUsd) else 0.0;
      Recorded(lines[..|lines| - 1], category, key) + paid
  }

  lemma {:induction false} RecordedGrows(lines: seq<Line>, line: Line, category: bool, key: string)
    ensures Recorded(lines + [line], category, key) == Recorded(lines, category, key)
      + (if line.position.Some? && (if category then line.decision.category else line.decision.family) == key
         then Round2(line.decision.deployableCapitalUsd) else 0.0)
  {
    assert (lines + [line])[..|lines|] == lines;
  }

  ghost predicate BooksAreRecorded(b: Books, lines: seq<Line>) {
    && (forall k :: Used(b.category, k) == Recorded(lines, true, k))
    && (forall k :: Used(b.family, k) == Recorded(lines, false, k))
  }

  lemma {:induction false} PaymentIsRecorded(b: Books, lines: seq<Line>, d: Decision)
    requires BooksAreRecorded(b, lines) && WholeEntries(b) && d.deployableCapitalUsd > 0.0
    ensures var line := Line(d, Some(b.position), []);
      BooksAreRecorded(Post(b, line), lines + [line])
  {
    hide WholeCents, Round2, Recorded;
    EntryGrowsBy(b.category, d.category, Required(d));
    EntryGrowsBy(b.family, d.family, Required(d));
    forall k
      ensures Used(Post(b, Line(d, Some(b.position), [])).category, k) ==
              Recorded(lines + [Line(d, Some(b.position), [])], true, k)
      ensures Used(Post(b, Line(d, Some(b.position), [])).family, k) ==
              Recorded(lines + [Line(d, Some(b.position), [])], false, k)
    {
      RecordedGrows(lines, Line(d, Some(b.position), []), true, k);
      RecordedGrows(lines, Line(d, Some(b.position), []), false, k);
      assert Used(b.category, k) == Recorded(lines, true, k) && Used(b.family, k) == Recorded(lines, false, k);
    }
  }

  lemma {:induction false} SkipIsRecorded(b: Books, lines: seq<Line>, line: Line)
    requires BooksAreRecorded(b, lines) && line.position.None?
    ensures BooksAreRecorded(Post(b, line), lines + [line])
  {
    hide Round2, Recorded;
    forall k
      ensures Recorded(lines + [line], true, k) == Recorded(lines, true, k)
      ensures Recorded(lines + [line], false, k) == Recorded(lines, false, k)
    {
      RecordedGrows(lines, line, true, k);
      RecordedGrows(lines, line, false, k);
    }
  }

  lemma {:induction false} BooksRecord(cash: real, ds: seq<Decision>)
    ensures BooksAreRecorded(BooksAfter(cash, ds), Lines(cash, ds))
  {
    hide AllocationBlocks, Post, WholeEntries;
    if ds != [] {
      hide BooksAreRecorded;
      var front, d := ds[..|ds| - 1], ds[|ds| - 1];
      BooksRecord(cash, front);
      var b := BooksAfter(cash, front);
      FundedFits(cash, b, d);
      if Place(cash, b, d).position.Some? {
        EntriesStayWhole(cash, front);
        PaymentIsRecorded(b, Lines(cash, front), d);
      } else {
        SkipIsRecorded(b, Lines(cash, front), Place(cash, b, d));
      }
    }
  }

  /** A decision is funded exactly when it is a BUY, asks for something, and what it asks for is
      left, and keeps its category's and its family's records within its shares of the cash. */
  lemma {:induction false} FundedOnFields(cash: real, ds: seq<Decision>, i: nat)
    requires i < |ds|
    ensures var above, d, asks := Lines(cash, ds)[..i], ds[i], ds[i].deployableCapitalUsd;
      Lines(cash, ds)[i].position.Some? <==>
        && d.status == BUY && asks > 0.0 && asks <= BooksAfter(cash, ds[..i]).remaining
        && Recorded(above, true, d.category) + asks <= cash * d.maxCategoryCapitalPct
        && Recorded(above, false, d.family) + asks <= cash * d.maxFamilyCapitalPct
  {
    LimitIs(cash, ds[i].maxCategoryCapitalPct);
    LimitIs(cash, ds[i].maxFamilyCapitalPct);
    hide Recorded, BooksAfter, Lines, Place, Round2, WholeCents, LimitOf;
    LineAt(cash, ds, i);
    BooksRecord(cash, ds[..i]);
    FundedFits(cash, BooksAfter(cash, ds[..i]), ds[i]);
  }

  lemma {:induction false} LimitIs(cash: real, pct: real)
    ensures LimitOf(cash, pct) == cash * pct
  {}

  /** The balance starts at the cash; each payment is taken off it, to the nearest cent. */
  lemma {:induction false} BalanceLaw(cash: real, ds: seq<Decision>, i: nat)
    requires i < |ds|
    ensures BooksAfter(cash, []).remaining == cash
    ensures var before, now := BooksAfter(cash, ds[..i]).remaining, BooksAfter(cash, ds[..i + 1]).remaining;
      if Lines(cash, ds)[i].position.Some? then now - 0.005 <= before - ds[i].deployableCapitalUsd < now + 0.005
      else now == before
  {
    LineAt(cash, ds, i);
    OneMore(cash, ds, i);
    var b := BooksAfter(cash, ds[..i]);
    FundedFits(cash, b, ds[i]);
    RoundIsNear(b.remaining - ds[i].deployableCapitalUsd);
    hide Round2, AllocationBlocks, Fits, Lines, BooksAfter;
  }

  /** A skipped BUY carries every reason that kept it out, and at least one; other decisions and
      funded ones carry none. */
  lemma {:induction false} ReasonsLaw(cash: real, ds: seq<Decision>, i: nat)
    requires i < |ds|
    ensures var line, above, d := Lines(cash, ds)[i], Lines(cash, ds)[..i], ds[i];
      var asks := MaxR(0.0, d.deployableCapitalUsd);
      var skipped := d.status == BUY && line.position.None?;
      && (line.blocks != [] <==> skipped) && NotBuy !in line.blocks
      && (skipped ==>
            && (NoDeployableCapital in line.blocks <==> d.deployableCapitalUsd <= 0.0)
            && (InsufficientCash in line.blocks <==> BooksAfter(cash, ds[..i]).remaining < asks)
            && (CategoryLimit in line.blocks <==>
                  Recorded(above, true, d.category) + asks > cash * d.maxCategoryCapitalPct)
            && (FamilyLimit in line.blocks <==> Recorded(above, false, d.family) + asks > cash * d.maxFamilyCapitalPct))
  {
    LimitIs(cash, ds[i].maxCategoryCapitalPct);
    LimitIs(cash, ds[i].maxFamilyCapitalPct);
    hide Recorded, BooksAfter, Lines, Round2, WholeCents, LimitOf;
    LineAt(cash, ds, i);
    BooksRecord(cash, ds[..i]);
    BlocksMean(cash, BooksAfter(cash, ds[..i]), ds[i]);
    hide AllocationBlocks;
  }

  lemma {:induction false} BlocksMean(cash: real, b: Books, d: Decision)
    ensures var blocks := AllocationBlocks(cash, b, d);
      && (NotBuy in blocks <==> d.status != BUY)
      && (NoDeployableCapital in blocks <==> d.deployableCapitalUsd <= 0.0)
      && (InsufficientCash in blocks <==> b.remaining < Required(d))
      && (CategoryLimit in blocks <==> Used(b.category, d.category) + Required(d) > CategoryCap(cash, d))
      && (FamilyLimit in blocks <==> Used(b.family, d.family) + Required(d) > FamilyCap(cash, d))
  {
    hide CategoryCap, FamilyCap, Used;
  }

  // ---------- the pass, as it runs ----------

  lemma {:induction false} NothingYet(cash: real)
    ensures BooksAfter(cash, []) == Start(cash) && Lines(cash, []) == []
  {}

  lemma {:induction false} OneMore(cash: real, ds: seq<Decision>, i: nat)
    requires i < |ds|
    ensures var line := Place(cash, BooksAfter(cash, ds[..i]), ds[i]);
      && BooksAfter(cash, ds[..i + 1]) == Post(BooksAfter(cash, ds[..i]), line)
      && Lines(cash, ds[..i + 1]) == Lines(cash, ds[..i]) + [line]
  {
    hide Place, Post;
    assert ds[..i + 1][..i] == ds[..i];
  }

  method AllocateAcquisitionPortfolio(decisions: seq<Decision>, cashOnHandUsd: real) returns (r: Result)
    ensures r == Allocate(MaxR(0.0, cashOnHandUsd), Ranked(decisions))
  {
    hide AllocationBlocks, Round2, Ranked, Required, Used, BooksAfter, Lines;
    var cash := MaxR(0.0, cashOnHandUsd);
    var sorted := Ranked(decisions);
    var remaining, spent, position, skipped := cash, 0.0, 1, 0;
    var category: map<string, real> := map[];
    var family: map<string, real> := map[];
    var lines: seq<Line> := [];
    NothingYet(cash);
    for i := 0 to |sorted|
      invariant position >= 0 && skipped >= 0
      invariant Books(remaining, spent, position, skipped, category, family) == BooksAfter(cash, sorted[..i])
      invariant lines == Lines(cash, sorted[..i])
    {
      OneMore(cash, sorted, i);
      var d := sorted[i];
      var required := Required(d);
      var blocks := AllocationBlocks(cash, Books(remaining, spent, position, skipped, category, family), d);
      if d.status == BUY && blocks == [] {
        remaining := Round2(remaining - required);
        spent := Round2(spent + required);
        category := category[d.category := Round2(Used(category, d.category) + required)];
        family := family[d.family := Round2(Used(family, d.family) + required)];
        lines := lines + [Line(d, Some(position), [])];
        position := position + 1;
      } else if d.status == BUY {
        skipped := skipped + 1;
        lines := lines + [Line(d, None, blocks)];
      } else {
        lines := lines + [Line(d, None, [])];
      }
    }
    assert sorted[..|sorted|] == sorted;
    r := Result(lines, Round2(spent), Round2(remaining), skipped);
  }
}
