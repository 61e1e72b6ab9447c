/**
 Which comparables are used (src/services/acquisitionCompSelection.ts). Parsing and the text
 heuristics are inputs; what is modelled is how their verdicts, the interquartile outlier
 filter and the key sets are put together.
 */
module CompSelection {
  import opened Common
  import opened Money
  import opened Quantiles

  datatype Source = Sold | Active

  datatype Reason = MissingPrice | TextMismatch | MatchScoreBelowThreshold | OutlierPrice

  datatype Comp = Comp(
    source: Source,
    itemId: Option<string>,
    title: string,
    priceUsd: real,
    accepted: bool,
    rejectionReason: Option<Reason>,
    similarityScore: real)

  /** The three parts of the key string. A source has no colon and a price has none either,
      so the string determines them. */
  datatype Key = Key(source: Source, name: string, price: real)

  function CompKey(c: Comp): Key {
    Key(c.source, if c.itemId.None? then c.title else c.itemId.value, c.priceUsd)
  }

  function ParsePrice(n: real): Option<real> {
    if n > 0.0 then Some(n) else None
  }

  /** What normalisation leaves: accepted comps have a price and no reason. */
  predicate Normalized(c: Comp) {
    && (c.accepted <==> c.rejectionReason.None?)
    && (c.accepted ==> c.priceUsd > 0.0)
    && c.priceUsd >= 0.0
  }

  function NormalizeComp(source: Source, itemId: Option<string>, title: string, price: real,
                         mismatch: bool, score: real, threshold: real): (c: Comp)
    ensures Normalized(c) && c.source == source && c.itemId == itemId && c.title == title
    ensures c.similarityScore == score && c.priceUsd == MaxR(0.0, price)
    ensures c.accepted <==> price > 0.0 && !mismatch && score >= threshold
    ensures c.rejectionReason == Some(MissingPrice) <==> price <= 0.0
    ensures c.rejectionReason == Some(TextMismatch) <==> price > 0.0 && mismatch
    ensures c.rejectionReason != Some(OutlierPrice)
  {
    var parsed := ParsePrice(price);
    var rejection := if parsed.None? then Some(MissingPrice) else if mismatch then Some(TextMismatch) else None;
    var accepted := rejection.None? && score >= threshold;
    Comp(source, itemId, title, if parsed.None? then 0.0 else parsed.value, accepted,
         if accepted then None else if rejection.Some? then rejection else Some(MatchScoreBelowThreshold), score)
  }

  function Filter(cs: seq<Comp>, keep: Comp -> bool): (r: seq<Comp>)
    ensures forall c :: c in r <==> c in cs && keep(c)
  {
    if cs == [] then []
    else if keep(cs[0]) then [cs[0]] + Filter(cs[1..], keep) else Filter(cs[1..], keep)
  }

  function Map(cs: seq<Comp>, f: Comp -> Comp): (r: seq<Comp>)
    ensures |r| == |cs| && forall i :: 0 <= i < |cs| ==> r[i] == f(cs[i])
  {
    if cs == [] then [] else [f(cs[0])] + Map(cs[1..], f)
  }

  function Not(p: Comp -> bool): Comp -> bool {
    (c: Comp) => !p(c)
  }

  function AcceptedOf(cs: seq<Comp>): seq<Comp> {
    Filter(cs, (c: Comp) => c.accepted)
  }

  function FromSource(cs: seq<Comp>, source: Source): seq<Comp> {
    Filter(cs, (c: Comp) => c.source == source)
  }

  function SoldPrices(cs: seq<Comp>): seq<real> {
    if cs == [] then []
    else if cs[0].source == Sold then [cs[0].priceUsd] + SoldPrices(cs[1..]) else SoldPrices(cs[1..])
  }

  datatype Fences = Fences(low: real, high: real)

  /** No fences below five sold prices or without spread between the quartiles. */
  function FencesOf(cs: seq<Comp>): Option<Fences> {
    var prices := Sorted(SoldPrices(cs));
    if |prices| < 5 then None
    else
      var q1, q3 := Quantile(prices, 0.25).value, Quantile(prices, 0.75).value;
      var iqr := q3 - q1;
      if iqr <= 0.0 then None else Some(Fences(MaxR(0.0, q1 - iqr * 1.75), q3 + iqr * 1.75))
  }

  predicate IsOutlier(fences: Option<Fences>, c: Comp) {
    fences.Some? && c.source == Sold && (c.priceUsd < fences.value.low || c.priceUsd > fences.value.high)
  }

  function Outliers(cs: seq<Comp>): seq<Comp> {
    var fences := FencesOf(cs);
    Filter(cs, (c: Comp) => IsOutlier(fences, c))
  }

  function KeysOf(cs: seq<Comp>): set<Key> {
    set c | c in cs :: CompKey(c)
  }

  /** The filter goes by key, so it drops whatever shares a key with an outlier. */
  function WithoutOutliers(cs: seq<Comp>): seq<Comp> {
    var keys := KeysOf(Outliers(cs));
    Filter(cs, (c: Comp) => CompKey(c) !in keys)
  }

  datatype CompSet = CompSet(
    soldComps: seq<Comp>,
    activeComps: seq<Comp>,
    acceptedComps: seq<Comp>,
    rejectedComps: seq<Comp>,
    outlierCount: nat)

  function RejectedForm(acceptedIds: set<Key>, c: Comp): Comp {
    if CompKey(c) in acceptedIds then c
    else
      var reason := if c.rejectionReason.Some? then c.rejectionReason else Some(OutlierPrice);
      c.(accepted := false, rejectionReason := reason)
  }

  function BuildCompSet(sold: seq<Comp>, active: seq<Comp>): CompSet {
    var all := sold + active;
    var before := AcceptedOf(all);
    var accepted := WithoutOutliers(before);
    var outlierKeys := KeysOf(Outliers(before));
    var acceptedIds := KeysOf(accepted);
    var rejected := Map(Filter(all, (c: Comp) => !c.accepted || CompKey(c) in outlierKeys),
                        (c: Comp) => RejectedForm(acceptedIds, c));
    CompSet(FromSource(accepted, Sold), FromSource(accepted, Active),
            accepted, rejected, |Outliers(before)|)
  }

  // ---------- the partition ----------

  /** The fences of a run: they come from the comps accepted before outlier removal. */
  function RunFences(all: seq<Comp>): Option<Fences> {
    FencesOf(AcceptedOf(all))
  }

  predicate Used(fences: Option<Fences>, c: Comp) {
    c.accepted && !IsOutlier(fences, c)
  }

  function UsedBy(fences: Option<Fences>): Comp -> bool {
    (c: Comp) => Used(fences, c)
  }

  function InsideOf(fences: Option<Fences>): Comp -> bool {
    (c: Comp) => !IsOutlier(fences, c)
  }

  lemma {:induction false} FilterSame(cs: seq<Comp>, p: Comp -> bool, q: Comp -> bool)
    requires forall c :: c in cs ==> p(c) == q(c)
    ensures Filter(cs, p) == Filter(cs, q)
  {
    if cs != [] {
      FilterSame(cs[1..], p, q);
    }
  }

  lemma {:induction false} FilterTwice(cs: seq<Comp>, p: Comp -> bool, q: Comp -> bool, both: Comp -> bool)
    requires forall c :: both(c) == (p(c) && q(c))
    ensures Filter(Filter(cs, p), q) == Filter(cs, both)
  {
    if cs != [] {
      FilterTwice(cs[1..], p, q, both);
      if p(cs[0]) {
        assert ([cs[0]] + Filter(cs[1..], p))[1..] == Filter(cs[1..], p);
      }
    }
  }

  lemma {:induction false} FilterSplits(cs: seq<Comp>, p: Comp -> bool)
    ensures |Filter(cs, p)| + |Filter(cs, Not(p))| == |cs|
    ensures multiset(Filter(cs, p)) + multiset(Filter(cs, Not(p))) == multiset(cs)
  {
    if cs != [] {
      FilterSplits(cs[1..], p);
      assert cs == [cs[0]] + cs[1..];
    }
  }

  lemma {:induction false} MapSame(cs: seq<Comp>, f: Comp -> Comp, g: Comp -> Comp)
    requires forall c :: c in cs ==> f(c) == g(c)
    ensures Map(cs, f) == Map(cs, g)
  {
    assert forall i :: 0 <= i < |cs| ==> cs[i] in cs;
  }

  /** Comps with one key are outliers together, because the key holds source and price. */
  lemma {:induction false} KeyDecides(cs: seq<Comp>, c: Comp)
    requires c in cs
    ensures CompKey(c) in KeysOf(Outliers(cs)) <==> IsOutlier(FencesOf(cs), c)
  {
    hide FencesOf;
    var outliers := Outliers(cs);
    if CompKey(c) in KeysOf(outliers) {
      var o :| o in outliers && CompKey(o) == CompKey(c);
    }
    if IsOutlier(FencesOf(cs), c) {
      assert c in outliers;
    }
  }

  /** The key filter removes exactly the outliers. */
  lemma {:induction false} KeyFilterIsPriceFilter(cs: seq<Comp>)
    ensures var fences := FencesOf(cs);
      WithoutOutliers(cs) == Filter(cs, InsideOf(fences))
  {
    hide FencesOf, Outliers, IsOutlier, KeysOf;
    var fences, keys := FencesOf(cs), KeysOf(Outliers(cs));
    forall c | c in cs
      ensures CompKey(c) !in keys <==> !IsOutlier(fences, c)
    {
      KeyDecides(cs, c);
    }
    FilterSame(cs, (c: Comp) => CompKey(c) !in keys, InsideOf(fences));
  }

  function Marked(c: Comp): Comp {
    if c.accepted then c.(accepted := false, rejectionReason := Some(OutlierPrice)) else c
  }

  ghost predicate AllNormalized(cs: seq<Comp>) {
    forall c :: c in cs ==> Normalized(c)
  }

  lemma {:induction false} AcceptedAre(all: seq<Comp>)
    ensures var fences := RunFences(all);
      WithoutOutliers(AcceptedOf(all)) == Filter(all, UsedBy(fences))
  {
    hide FencesOf, WithoutOutliers, IsOutlier;
    var before, fences := AcceptedOf(all), RunFences(all);
    KeyFilterIsPriceFilter(before);
    FilterTwice(all, (c: Comp) => c.accepted, InsideOf(fences), UsedBy(fences));
  }

  /** Every comp ends up in exactly one list. Those accepted and inside the fences are used,
      unchanged and in order; all others are rejected, in order, with the flag cleared and a
      reason, which is the outlier reason exactly for those that had been accepted. */
  lemma {:induction false} ExactPartition(sold: seq<Comp>, active: seq<Comp>)
    requires AllNormalized(sold + active)
    ensures var all, r := sold + active, BuildCompSet(sold, active);
      var fences := RunFences(all);
      && r.acceptedComps == Filter(all, UsedBy(fences))
      && r.rejectedComps == Map(Filter(all, Not(UsedBy(fences))), Marked)
      && |r.acceptedComps| + |r.rejectedComps| == |all|
      && (forall c :: c in r.acceptedComps ==> c.accepted && c.rejectionReason.None?)
      && (forall c :: c in r.rejectedComps ==> !c.accepted && c.rejectionReason.Some?)
  {
    hide FencesOf, IsOutlier, Outliers, WithoutOutliers;
    var all := sold + active;
    var fences := RunFences(all);
    var before := AcceptedOf(all);
    var outlierKeys := KeysOf(Outliers(before));
    var acceptedIds := KeysOf(WithoutOutliers(before));
    AcceptedAre(all);
    FilterSplits(all, UsedBy(fences));
    forall c | c in all
      ensures (!c.accepted || CompKey(c) in outlierKeys) == !Used(fences, c)
      ensures c.accepted && CompKey(c) in outlierKeys ==> CompKey(c) !in acceptedIds
    {
      if c.accepted {
        RejectedKeys(before, c);
      }
    }
    FilterSame(all, (c: Comp) => !c.accepted || CompKey(c) in outlierKeys, Not(UsedBy(fences)));
    var rejected := Filter(all, Not(UsedBy(fences)));
    var mark: Comp -> Comp := (c: Comp) => RejectedForm(acceptedIds, c);
    forall c | c in rejected
      ensures mark(c) == Marked(c) && !Marked(c).accepted && Marked(c).rejectionReason.Some?
    {
      assert Normalized(c);
    }
    MapSame(rejected, mark, Marked);
  }

  lemma {:induction false} RejectedKeys(before: seq<Comp>, c: Comp)
    requires c in before
    ensures CompKey(c) in KeysOf(Outliers(before)) <==> IsOutlier(FencesOf(before), c)
    ensures CompKey(c) in KeysOf(Outliers(before)) ==> CompKey(c) !in KeysOf(WithoutOutliers(before))
  {
    hide FencesOf, IsOutlier, Outliers;
    KeyDecides(before, c);
  }

  // ---------- the middle survives ----------

  lemma {:induction false} SoldPricesAre(cs: seq<Comp>)
    ensures forall x :: x in SoldPrices(cs) <==> exists c :: c in cs && c.source == Sold && c.priceUsd == x
    ensures |SoldPrices(cs)| == |FromSource(cs, Sold)|
  {
    if cs != [] {
      SoldPricesAre(cs[1..]);
      assert cs == [cs[0]] + cs[1..];
    }
  }

  /** Whatever lies between the unrounded quartiles is inside the fences, although the fences
      are built from rounded ones. */
  lemma {:induction false} BetweenQuartilesIsInside(cs: seq<Comp>, c: Comp)
    requires |SoldPrices(cs)| >= 5 && c.priceUsd >= 0.0
    requires var prices := Sorted(SoldPrices(cs));
      |prices| == |SoldPrices(cs)| && (PositionInRange(|prices|, 0.25); PositionInRange(|prices|, 0.75);
      At(prices, Position(|prices|, 0.25)) <= c.priceUsd <= At(prices, Position(|prices|, 0.75)))
    ensures !IsOutlier(FencesOf(cs), c)
  {
    hide At, Position, Sorted, SoldPrices;
    var prices := Sorted(SoldPrices(cs));
    PositionInRange(|prices|, 0.25);
    PositionInRange(|prices|, 0.75);
    var a1, a3 := At(prices, Position(|prices|, 0.25)), At(prices, Position(|prices|, 0.75));
    RoundIsNear(a1);
    RoundIsNear(a3);
    var iqr := Round2(a3) - Round2(a1);
    if iqr > 0.0 {
      assert Cents(a3) - Cents(a1) >= 1;
      assert iqr >= 0.01;
    }
  }

  /** With five sold prices or more, every sold comp whose rank lies between the two quartile
      positions survives. */
  lemma {:induction false} MiddleRanksSurvive(cs: seq<Comp>, c: Comp, k: nat)
    requires AllNormalized(cs) && c in cs && c.source == Sold && |SoldPrices(cs)| >= 5
    requires k < |Sorted(SoldPrices(cs))| && Sorted(SoldPrices(cs))[k] == c.priceUsd
    requires Position(|SoldPrices(cs)|, 0.25) <= k as real <= Position(|SoldPrices(cs)|, 0.75)
    ensures c in WithoutOutliers(cs)
  {
    hide At, Position, SoldPrices, FencesOf, WithoutOutliers;
    var prices := Sorted(SoldPrices(cs));
    SortedAscends(SoldPrices(cs));
    hide Sorted;
    PositionInRange(|prices|, 0.25);
    PositionInRange(|prices|, 0.75);
    AtBetween(prices, Position(|prices|, 0.25), k);
    AtBetween(prices, Position(|prices|, 0.75), k);
    assert Normalized(c);
    BetweenQuartilesIsInside(cs, c);
    KeyFilterIsPriceFilter(cs);
  }

  /** So outlier removal never empties the sold comps. */
  lemma {:induction false} SoldNeverEmptied(sold: seq<Comp>, active: seq<Comp>)
    requires AllNormalized(sold + active)
    requires exists c :: c in sold + active && c.accepted && c.source == Sold
    ensures BuildCompSet(sold, active).soldComps != []
  {
    var before := AcceptedOf(sold + active);
    SoldPricesAre(before);
    if |SoldPrices(before)| < 5 {
      var c :| c in sold + active && c.accepted && c.source == Sold;
      FewAreKept(before, c);
      assert c in FromSource(WithoutOutliers(before), Sold);
    } else {
      MiddleExists(before);
      var c :| c in WithoutOutliers(before) && c.source == Sold;
      assert c in FromSource(WithoutOutliers(before), Sold);
    }
  }

  lemma {:induction false} FewAreKept(cs: seq<Comp>, c: Comp)
    requires c in cs && |SoldPrices(cs)| < 5
    ensures c in WithoutOutliers(cs)
  {
    SortedAscends(SoldPrices(cs));
    KeyFilterIsPriceFilter(cs);
  }

  lemma {:induction false} MiddleExists(cs: seq<Comp>)
    requires AllNormalized(cs) && |SoldPrices(cs)| >= 5
    ensures exists c :: c in WithoutOutliers(cs) && c.source == Sold
  {
    var prices := Sorted(SoldPrices(cs));
    SortedAscends(SoldPrices(cs));
    SoldPricesAre(cs);
    var k := (|prices| - 1) / 2;
    assert prices[k] in multiset(prices);
    assert prices[k] in SoldPrices(cs);
    var c :| c in cs && c.source == Sold && c.priceUsd == prices[k];
    MiddleRanksSurvive(cs, c, k);
  }

  // ---------- which prices are rejected ----------

  /** The prices that the quartiles are taken from. */
  function SoldAndAccepted(all: seq<Comp>): seq<real> {
    if all == [] then []
    else if all[0].accepted && all[0].source == Sold then [all[0].priceUsd] + SoldAndAccepted(all[1..])
    else SoldAndAccepted(all[1..])
  }

  lemma {:induction false} SoldPricesOfAccepted(all: seq<Comp>)
    ensures SoldPrices(AcceptedOf(all)) == SoldAndAccepted(all)
  {
    if all != [] {
      SoldPricesOfAccepted(all[1..]);
      var rest := AcceptedOf(all[1..]);
      if all[0].accepted {
        assert AcceptedOf(all) == [all[0]] + rest;
        assert ([all[0]] + rest)[1..] == rest;
      } else {
        assert AcceptedOf(all) == rest;
      }
    }
  }

  /** Far from the middle half of `prices`: there are five of them or more, its quartiles
      differ, and `x` is beyond one of them by more than 1.75 times their distance. */
  predicate FarOut(prices: seq<real>, x: real) {
    |prices| >= 5 &&
    var q1, q3 := Quantile(prices, 0.25).value, Quantile(prices, 0.75).value;
    q1 < q3 && (x < q1 - 1.75 * (q3 - q1) || q3 + 1.75 * (q3 - q1) < x)
  }

  lemma {:induction false} OutlierIff(cs: seq<Comp>, prices: seq<real>, c: Comp)
    requires Ascending(prices) && multiset(prices) == multiset(SoldPrices(cs)) && c.priceUsd >= 0.0
    ensures IsOutlier(FencesOf(cs), c) <==> c.source == Sold && FarOut(prices, c.priceUsd)
  {
    SortedAscends(SoldPrices(cs));
    AscendingIsUnique(prices, Sorted(SoldPrices(cs)));
    hide Quantile, Sorted, SoldPrices;
  }

  /** A comp is used exactly when it was accepted and is not a sold one whose price is far from
      the middle half of the accepted sold prices; any other accepted comp is an outlier. */
  lemma {:induction false} RejectedIffFarOut(sold: seq<Comp>, active: seq<Comp>, prices: seq<real>, c: Comp)
    requires AllNormalized(sold + active) && c in sold + active
    requires Ascending(prices) && multiset(prices) == multiset(SoldAndAccepted(sold + active))
    ensures var r := BuildCompSet(sold, active);
      && (c in r.acceptedComps <==> c.accepted && !(c.source == Sold && FarOut(prices, c.priceUsd)))
      && (c in r.soldComps <==> c in r.acceptedComps && c.source == Sold)
      && (c in r.activeComps <==> c in r.acceptedComps && c.source == Active)
  {
    SoldPricesOfAccepted(sold + active);
    OutlierIff(AcceptedOf(sold + active), prices, c);
    ExactPartition(sold, active);
    hide FarOut, FencesOf, IsOutlier, AcceptedOf, SoldAndAccepted, WithoutOutliers;
  }

  /** Accepted comps are used or counted as outliers, and those used are sold or active. */
  lemma {:induction false} CountsOfComps(sold: seq<Comp>, active: seq<Comp>)
    ensures var r := BuildCompSet(sold, active);
      && r.outlierCount + |r.acceptedComps| == |AcceptedOf(sold + active)|
      && multiset(r.soldComps) + multiset(r.activeComps) == multiset(r.acceptedComps)
  {
    var r, before := BuildCompSet(sold, active), AcceptedOf(sold + active);
    var fences := FencesOf(before);
    KeyFilterIsPriceFilter(before);
    FilterSplits(before, InsideOf(fences));
    FilterSame(before, Not(InsideOf(fences)), (c: Comp) => IsOutlier(fences, c));
    FilterSplits(r.acceptedComps, (c: Comp) => c.source == Sold);
    FilterSame(r.acceptedComps, Not((c: Comp) => c.source == Sold), (c: Comp) => c.source == Active);
    hide FencesOf, IsOutlier;
  }
}
