/**
 From comparable prices to a bid and an amount of capital: the quartiles of the market
 profile (src/services/acquisitionMarketAnalytics.ts) and the financial model built on them
 (src/services/acquisitionFinancialModel.ts).
 */
module FinancialModel {
  import opened Common
  import opened Money
  import opened Quantiles
  import Portfolio

  datatype Market = Market(
    soldMedian: Option<real>,
    soldP25: Option<real>,
    soldP75: Option<real>,
    activeMedian: Option<real>)

  datatype Candidate = Candidate(
    buyNowPrice: Option<real>,
    currentBidPrice: Option<real>,
    currentPrice: Option<real>,
    inboundShippingUsd: Option<real>,
    quantityAvailable: Option<int>)

  datatype Shipping = Shipping(outboundUsd: real, confidence: real)

  datatype Policy = Policy(
    marketplaceFeeRate: real,
    paymentFeeRate: real,
    salesTaxRate: real,
    insuranceReserveRate: real,
    returnRiskRate: real,
    disputeRiskRate: real,
    damageRiskRate: real,
    carrierRiskRate: real,
    signatureReserveUsd: real,
    warehouseHandlingUsd: real,
    storageReserveUsd: real,
    packagingCostUsd: real,
    shippingBufferUsd: real,
    minProfitUsd: real,
    cashReservePct: real,
    maxItemCapitalPct: real)

  datatype Input = Input(candidate: Candidate, policy: Policy, market: Market, shipping: Shipping, cashOnHandUsd: real)

  datatype Output = Output(
    estimatedPurchasePriceUsd: real,
    aggressiveResaleUsd: Option<real>,
    expectedResaleUsd: Option<real>,
    conservativeResaleUsd: Option<real>,
    expectedNetUsd: Option<real>,
    estimatedProfitUsd: Option<real>,
    maxBidUsd: Option<real>,
    deployableUnits: int,
    deployableCapitalUsd: real,
    deployableProfitUsd: real)

  // ---------- the market profile ----------

  /** Prices that count: positive ones. */
  function ValidPrices(prices: seq<real>): (r: seq<real>)
    ensures forall x :: x in r <==> x in prices && x > 0.0
  {
    if prices == [] then []
    else if prices[0] > 0.0 then [prices[0]] + ValidPrices(prices[1..]) else ValidPrices(prices[1..])
  }

  function SortedPrices(prices: seq<real>): seq<real> {
    Sorted(ValidPrices(prices))
  }

  lemma {:induction false} SortedPricesAre(prices: seq<real>)
    ensures Ascending(SortedPrices(prices)) && forall x :: x in multiset(SortedPrices(prices)) ==> x > 0.0
  {
    SortedAscends(ValidPrices(prices));
    assert forall x :: x in multiset(ValidPrices(prices)) ==> x in ValidPrices(prices);
  }

  function MarketProfile(soldPrices: seq<real>, activePrices: seq<real>): Market {
    var sold, active := SortedPrices(soldPrices), SortedPrices(activePrices);
    Market(Quantile(sold, 0.5), Quantile(sold, 0.25), Quantile(sold, 0.75), Quantile(active, 0.5))
  }

  // ---------- resale values ----------

  /** JavaScript's truth of a number that may be missing: present and not zero. */
  predicate Truthy(x: Option<real>) {
    x.Some? && x.value != 0.0
  }

  function OrElse(x: Option<real>, y: Option<real>): Option<real> {
    if x.Some? then x else y
  }

  function Shown(x: Option<real>): Option<real> {
    if x.Some? then Some(Round2(x.value)) else None
  }

  function AggressiveResale(m: Market): Option<real> {
    OrElse(OrElse(m.soldP75, m.soldMedian), m.activeMedian)
  }

  function ExpectedResale(m: Market): Option<real> {
    OrElse(m.soldMedian, m.activeMedian)
  }

  function ConservativeResale(m: Market): Option<real> {
    if Truthy(m.soldP25) then m.soldP25
    else if Truthy(m.soldMedian) then Some(m.soldMedian.value * 0.92)
    else if Truthy(m.activeMedian) then Some(m.activeMedian.value * 0.82)
    else None
  }

  function ResaleForModel(m: Market): Option<real> {
    OrElse(ConservativeResale(m), ExpectedResale(m))
  }

  // ---------- costs, profit and bid ----------

  function Share(amount: real, rate: real): real {
    amount * rate
  }

  function EstimatePurchasePrice(c: Candidate, soldMedian: Option<real>): real {
    if c.buyNowPrice.Some? && c.buyNowPrice.value > 0.0 then Round2(c.buyNowPrice.value)
    else if c.currentBidPrice.Some? && c.currentBidPrice.value > 0.0 then
      var bid := c.currentBidPrice.value;
      var compFloor := if soldMedian.Some? && soldMedian.value > 0.0 then soldMedian.value * 0.35 else 0.0;
      Round2(MaxR(MaxR(bid * 1.75, compFloor), bid + 25.0))
    else if c.currentPrice.Some? && c.currentPrice.value > 0.0 then Round2(c.currentPrice.value)
    else 0.0
  }

  function ShippingEstimate(x: Input): real {
    var inbound := Round2(if x.candidate.inboundShippingUsd.Some? then x.candidate.inboundShippingUsd.value else 0.0);
    Round2(inbound + x.shipping.outboundUsd + x.policy.shippingBufferUsd)
  }

  function RiskReserve(x: Input, resale: real): real {
    var p := x.policy;
    Round2(Share(resale, p.returnRiskRate) + Share(resale, p.disputeRiskRate) + Share(resale, p.damageRiskRate)
           + Share(resale, p.insuranceReserveRate) + (if resale >= 250.0 then p.signatureReserveUsd else 0.0)
           + Share(Share(resale, p.carrierRiskRate), 1.0 - x.shipping.confidence))
  }

  /** All costs but the purchase price and its sales tax. */
  function CostsBeforeTax(x: Input, resale: real): real {
    var p := x.policy;
    Round2(Share(resale, p.marketplaceFeeRate) + Share(resale, p.paymentFeeRate))
    + ShippingEstimate(x) + p.packagingCostUsd + p.warehouseHandlingUsd + p.storageReserveUsd + RiskReserve(x, resale)
  }

  /** The costs when the item is bought at `price`. */
  function VariableCosts(x: Input, resale: real, price: real): real {
    Round2(CostsBeforeTax(x, resale) + Share(price, x.policy.salesTaxRate))
  }

  function NetAt(x: Input, resale: real, price: real): real {
    Round2(resale - VariableCosts(x, resale, price))
  }

  function ProfitAt(x: Input, resale: real, price: real): real {
    Round2(NetAt(x, resale, price) - price)
  }

  function CostBasis(x: Input, resale: real, price: real): real {
    Round2(price + VariableCosts(x, resale, price))
  }

  function MaxBid(x: Input, expectedNet: real): real {
    Round2(MaxR(0.0, expectedNet - x.policy.minProfitUsd))
  }

  // ---------- units and capital ----------

  function ReserveLimit(x: Input): real {
    MaxR(0.0, Share(x.cashOnHandUsd, 1.0 - x.policy.cashReservePct))
  }

  function ItemLimit(x: Input): real {
    MaxR(0.0, Share(x.cashOnHandUsd, x.policy.maxItemCapitalPct))
  }

  function Quantity(c: Candidate): int {
    Max(1, if c.quantityAvailable.Some? && c.quantityAvailable.value != 0 then c.quantityAvailable.value else 1)
  }

  function AffordableUnits(limit: real, basis: real): int {
    if basis > 0.0 then (limit / basis).Floor else 0
  }

  function Units(x: Input, basis: real): nat {
    Max(0, Min(Quantity(x.candidate), AffordableUnits(MinR(ReserveLimit(x), ItemLimit(x)), basis)))
  }

  function Times(units: nat, amount: real): real {
    units as real * amount
  }

  function Model(x: Input): Output {
    var price := EstimatePurchasePrice(x.candidate, x.market.soldMedian);
    var resale := ResaleForModel(x.market);
    if !Truthy(resale) || price <= 0.0 then
      Output(price, None, None, None, None, None, None, 0, 0.0, 0.0)
    else
      var net := NetAt(x, resale.value, price);
      var basis := CostBasis(x, resale.value, price);
      var units := Units(x, basis);
      Output(price, Shown(AggressiveResale(x.market)), Shown(ExpectedResale(x.market)),
             Shown(ConservativeResale(x.market)), Some(net), Some(ProfitAt(x, resale.value, price)),
             Some(MaxBid(x, net)),
             units, Round2(Times(units, basis)), Round2(Times(units, ProfitAt(x, resale.value, price))))
  }

  // ---------- quartiles and resale values are ordered ----------

  ghost predicate AtMost(x: Option<real>, y: Option<real>) {
    x.Some? && y.Some? ==> x.value <= y.value
  }

  /** For any prices the three sold quartiles are present together and in order, and no
      quartile is negative. */
  lemma {:induction false} QuartilesOrdered(sold: seq<real>, active: seq<real>)
    ensures var m := MarketProfile(sold, active);
      && m.soldP25.Some? == m.soldMedian.Some? == m.soldP75.Some?
      && (m.soldMedian.Some? ==> 0.0 <= m.soldP25.value <= m.soldMedian.value <= m.soldP75.value)
      && (m.activeMedian.Some? ==> 0.0 <= m.activeMedian.value)
      && WholeOption(m.soldP25) && WholeOption(m.soldMedian) && WholeOption(m.soldP75) && WholeOption(m.activeMedian)
  {
    hide Sorted, ValidPrices, Quantile, WholeCents, Round2, At, Position, Ascending;
    var ps, qs := SortedPrices(sold), SortedPrices(active);
    SortedPricesAre(sold);
    SortedPricesAre(active);
    QuantileMonotone(ps, 0.25, 0.5);
    QuantileMonotone(ps, 0.5, 0.75);
    QuantileMonotone(qs, 0.5, 0.5);
    QuantileNotNegative(ps, 0.25);
    QuantileNotNegative(qs, 0.5);
    QuantileIsWhole(ps, 0.25);
    QuantileIsWhole(ps, 0.5);
    QuantileIsWhole(ps, 0.75);
    QuantileIsWhole(qs, 0.5);
  }

  ghost predicate WholeOption(x: Option<real>) {
    x.Some? ==> WholeCents(x.value)
  }

  lemma {:induction false} QuantileIsWhole(values: seq<real>, q: real)
    requires 0.0 <= q <= 1.0
    ensures WholeOption(Quantile(values, q))
  {
    if values != [] {
      PositionInRange(|values|, q);
      RoundIsWhole(At(values, Position(|values|, q)));
    }
  }

  lemma {:induction false} QuantileNotNegative(values: seq<real>, q: real)
    requires Ascending(values) && 0.0 <= q <= 1.0
    requires forall x :: x in multiset(values) ==> x > 0.0
    ensures values != [] ==> 0.0 <= Quantile(values, q).value
  {
    if values != [] {
      QuantileInRange(values, q);
      assert values[0] in multiset(values);
      RoundMonotone(0.0, values[0]);
    }
  }

  /** Conservative, expected and aggressive resale values come out in order for every set of
      comps, but for one family: the sold median rounds to zero cents and there is an active
      median, which then becomes the conservative value alone. */
  lemma {:induction false} ResaleOrdered(sold: seq<real>, active: seq<real>)
    ensures var m := MarketProfile(sold, active);
      var c, e, a := Shown(ConservativeResale(m)), Shown(ExpectedResale(m)), Shown(AggressiveResale(m));
      && AtMost(e, a)
      && (AtMost(c, e) <==> !(m.soldMedian == Some(0.0) && Truthy(m.activeMedian)))
  {
    QuartilesOrdered(sold, active);
    var m := MarketProfile(sold, active);
    hide MarketProfile;
    OrderOfResale(m);
  }

  /** One comp sold for under half a cent beside one offered at 100: conservative resale is 82,
      expected resale 0. */
  lemma {:induction false} ConservativeCanExceedExpected()
    ensures var m := MarketProfile([0.004], [100.0]);
      Shown(ConservativeResale(m)) == Some(82.0) && Shown(ExpectedResale(m)) == Some(0.0)
  {
    var m := MarketProfile([0.004], [100.0]);
    assert [0.004][1..] == [] && [100.0][1..] == [];
    assert SortedPrices([0.004]) == [0.004] && SortedPrices([100.0]) == [100.0];
    QuantileOfOne(0.004, 0.25);
    QuantileOfOne(0.004, 0.5);
    QuantileOfOne(0.004, 0.75);
    QuantileOfOne(100.0, 0.5);
    assert Round2(0.004) == 0.0 && Round2(100.0) == 100.0;
    assert Round2(82.0) == 82.0;
    hide Quantile, SortedPrices, Round2;
  }

  lemma {:induction false} QuantileOfOne(price: real, q: real)
    requires 0.0 <= q <= 1.0
    ensures Quantile([price], q) == Some(Round2(price))
  {
    assert Position(1, q) == 0.0;
    InterpolateAtZero(price, price);
  }

  lemma {:induction false} OrderOfResale(m: Market)
    requires m.soldP25.Some? == m.soldMedian.Some? == m.soldP75.Some?
    requires m.soldMedian.Some? ==> 0.0 <= m.soldP25.value <= m.soldMedian.value <= m.soldP75.value
    requires m.activeMedian.Some? ==> 0.0 <= m.activeMedian.value
    requires WholeOption(m.soldP25) && WholeOption(m.soldMedian)
    requires WholeOption(m.soldP75) && WholeOption(m.activeMedian)
    ensures var c, e, a := Shown(ConservativeResale(m)), Shown(ExpectedResale(m)), Shown(AggressiveResale(m));
      && AtMost(e, a)
      && (AtMost(c, e) <==> !(m.soldMedian == Some(0.0) && Truthy(m.activeMedian)))
  {
    var e, a := ExpectedResale(m), AggressiveResale(m);
    if e.Some? {
      RoundMonotone(e.value, a.value);
    }
    var c := ConservativeResale(m);
    if c.Some? && e.Some? && c.value <= e.value {
      RoundMonotone(c.value, e.value);
    }
    if m.soldMedian == Some(0.0) && Truthy(m.activeMedian) {
      assert Cents(m.activeMedian.value) >= 1;
      assert m.activeMedian.value >= 0.01;
      RoundMonotone(0.0082, c.value);
      assert Cents(0.0082) == 1;
    }
  }

  /** In particular they are in order when the prices are at least a cent. */
  lemma {:induction false} ResaleOrderedFromOneCent(sold: seq<real>, active: seq<real>)
    requires forall x :: x in sold ==> x >= 0.01
    ensures var m := MarketProfile(sold, active);
      var c, e, a := Shown(ConservativeResale(m)), Shown(ExpectedResale(m)), Shown(AggressiveResale(m));
      AtMost(c, e) && AtMost(e, a)
  {
    hide Sorted, WholeCents, Round2, At, Position, ConservativeResale, AggressiveResale;
    ResaleOrdered(sold, active);
    var ps := SortedPrices(sold);
    SortedAscends(ValidPrices(sold));
    if ps != [] {
      QuantileInRange(ps, 0.5);
      assert ps[0] in multiset(ps);
      assert ps[0] in ValidPrices(sold);
      CentIsPositive(ps[0]);
    }
  }

  lemma {:induction false} CentIsPositive(x: real)
    requires x >= 0.01
    ensures Round2(x) > 0.0
  {}

  // ---------- what a bid at the maximum earns ----------

  lemma {:induction false} NetIsExact(x: Input, resale: real, price: real)
    ensures NetAt(x, resale, price) == Round2(resale) - VariableCosts(x, resale, price)
    ensures WholeCents(NetAt(x, resale, price)) && WholeCents(VariableCosts(x, resale, price))
  {
    hide WholeCents, CostsBeforeTax, Share;
    RoundIsWhole(CostsBeforeTax(x, resale) + Share(price, x.policy.salesTaxRate));
    WholeDifference(resale, VariableCosts(x, resale, price));
    RoundIsWhole(resale - VariableCosts(x, resale, price));
  }

  /** The required profit in whole cents, half a cent rounded down. */
  function RequiredCents(minProfit: real): real {
    -Round2(-minProfit)
  }

  /** A bid at the maximum earns the required profit, to the cent, less what the costs at that
      bid exceed the costs the model assumed: the tax was computed on the estimated price. When
      the required profit is out of reach the bid is zero and earns what is left then. */
  lemma {:induction false} ProfitAtMaxBid(x: Input, resale: real, price: real)
    ensures var net, min := NetAt(x, resale, price), x.policy.minProfitUsd;
      var bid := MaxBid(x, net);
      && (net < min ==> bid == 0.0)
      && ProfitAt(x, resale, bid) ==
           if net < min then NetAt(x, resale, 0.0)
           else RequiredCents(min) - (VariableCosts(x, resale, bid) - VariableCosts(x, resale, price))
  {
    hide WholeCents, CostsBeforeTax, Share, Round2, NetAt, VariableCosts;
    var net := NetAt(x, resale, price);
    var bid := MaxBid(x, net);
    NetIsExact(x, resale, price);
    NetIsExact(x, resale, bid);
    ZeroIsWhole();
    WholeMeans(0.0);
    WholeMeans(NetAt(x, resale, bid));
    AddRounded(net, -x.policy.minProfitUsd);
    RoundIsWhole(net - x.policy.minProfitUsd);
    if net >= x.policy.minProfitUsd {
      assert bid == net + Round2(-x.policy.minProfitUsd);
      WholeSum(NetAt(x, resale, bid), bid);
    }
  }

  lemma {:induction false} TaxMonotone(amount: real, more: real, rate: real)
    requires rate >= 0.0 && amount <= more
    ensures Share(amount, rate) <= Share(more, rate)
  {}

  /** So the maximum bid preserves the required profit exactly when the costs at that bid do
      not exceed the costs at the estimated price; they have to be lower where rounding made
      the whole-cent profit fall short of the required one. Where the bid is clamped to zero,
      it does exactly when the item given away would earn the profit. */
  lemma {:induction false} MaxBidPreservesProfitIff(x: Input, resale: real, price: real)
    ensures var net, min := NetAt(x, resale, price), x.policy.minProfitUsd;
      var bid := MaxBid(x, net);
      var costs, assumed := VariableCosts(x, resale, bid), VariableCosts(x, resale, price);
      ProfitAt(x, resale, bid) >= min <==>
        if net < min then NetAt(x, resale, 0.0) >= min
        else if RequiredCents(min) >= min then costs <= assumed
        else costs < assumed
  {
    hide WholeCents, Round2, VariableCosts, NetAt, ProfitAt, MaxBid;
    var min := x.policy.minProfitUsd;
    var bid := MaxBid(x, NetAt(x, resale, price));
    ProfitAtMaxBid(x, resale, price);
    NetIsExact(x, resale, price);
    NetIsExact(x, resale, bid);
    RoundIsNear(-min);
    WholeStep(VariableCosts(x, resale, bid), VariableCosts(x, resale, price));
    WholeStep(VariableCosts(x, resale, price), VariableCosts(x, resale, bid));
  }

  lemma {:induction false} WholeStep(a: real, b: real)
    requires WholeCents(a) && WholeCents(b)
    ensures a < b ==> a + 0.01 <= b
  {
    assert a < b ==> Cents(a) < Cents(b);
  }

  /** Where sales tax is not negative, costs at a bid exceed those at the estimated price only
      for a higher bid, and then unless the extra tax is lost in rounding. */
  lemma {:induction false} CostsExceedIff(x: Input, resale: real, bid: real, price: real)
    requires x.policy.salesTaxRate >= 0.0
    ensures VariableCosts(x, resale, bid) <= VariableCosts(x, resale, price) <==>
      bid <= price || VariableCosts(x, resale, bid) == VariableCosts(x, resale, price)
  {
    CostsMonotone(x, resale, MinR(bid, price), MaxR(bid, price));
    hide VariableCosts;
  }

  lemma {:induction false} CostsMonotone(x: Input, resale: real, low: real, high: real)
    requires low <= high && x.policy.salesTaxRate >= 0.0
    ensures VariableCosts(x, resale, low) <= VariableCosts(x, resale, high)
  {
    hide CostsBeforeTax, Share;
    TaxMonotone(low, high, x.policy.salesTaxRate);
    RoundMonotone(CostsBeforeTax(x, resale) + Share(low, x.policy.salesTaxRate),
                  CostsBeforeTax(x, resale) + Share(high, x.policy.salesTaxRate));
  }

  /** The bid exceeds the estimated price exactly when the item, bought at that price, earns
      more than the required profit in whole cents. */
  lemma {:induction false} BidAboveEstimateIff(x: Input, resale: real, price: real)
    requires WholeCents(price) && NetAt(x, resale, price) >= x.policy.minProfitUsd
    ensures MaxBid(x, NetAt(x, resale, price)) <= price <==>
      ProfitAt(x, resale, price) <= RequiredCents(x.policy.minProfitUsd)
  {
    hide WholeCents, Round2, VariableCosts, NetAt;
    var net, min := NetAt(x, resale, price), x.policy.minProfitUsd;
    NetIsExact(x, resale, price);
    WholeSum(net, price);
    AddRounded(net, -min);
  }

  /** So, with a whole-cent profit that is attainable and a sales tax that is not negative, the
      maximum bid preserves it exactly when the item earns no more than that at the estimated
      price, or the extra tax is lost in rounding. */
  lemma {:induction false} MaxBidPreservesProfitFromInput(x: Input, resale: real, price: real)
    requires WholeCents(price) && WholeCents(x.policy.minProfitUsd) && x.policy.salesTaxRate >= 0.0
    requires NetAt(x, resale, price) >= x.policy.minProfitUsd
    ensures var bid := MaxBid(x, NetAt(x, resale, price));
      ProfitAt(x, resale, bid) >= x.policy.minProfitUsd <==>
        || ProfitAt(x, resale, price) <= x.policy.minProfitUsd
        || VariableCosts(x, resale, bid) == VariableCosts(x, resale, price)
  {
    var min := x.policy.minProfitUsd;
    hide WholeCents, Round2, VariableCosts, NetAt, ProfitAt, MaxBid;
    ZeroIsWhole();
    WholeSum(0.0, min);
    WholeMeans(min);
    MaxBidPreservesProfitIff(x, resale, price);
    BidAboveEstimateIff(x, resale, price);
    CostsExceedIff(x, resale, MaxBid(x, NetAt(x, resale, price)), price);
  }

  /** A cheap item in a taxed place: worth 100, estimated at 10, with 20 to be earned. */
  const TAXED_BARGAIN := Input(
    Candidate(None, None, Some(10.0), None, None),
    Policy(0.0, 0.0, 0.1, 0.0, 0.0, 0.0, 0.0, 0.0, 0.0, 0.0, 0.0, 0.0, 0.0, 20.0, 0.0, 1.0),
    Market(Some(100.0), Some(100.0), Some(100.0), None),
    Shipping(0.0, 1.0), 1000.0)

  lemma {:induction false} ShareOfZeroRate(amount: real)
    ensures Share(amount, 0.0) == 0.0
  {}

  lemma {:induction false} BargainRates()
    ensures var p := TAXED_BARGAIN.policy;
      && p.returnRiskRate == p.disputeRiskRate == p.damageRiskRate == p.insuranceReserveRate == p.carrierRiskRate == 0.0
      && p.marketplaceFeeRate == p.paymentFeeRate == 0.0 && p.salesTaxRate == 0.1 && p.minProfitUsd == 20.0
      && p.packagingCostUsd == p.warehouseHandlingUsd == p.storageReserveUsd == 0.0
      && p.shippingBufferUsd == p.signatureReserveUsd == 0.0
      && TAXED_BARGAIN.shipping == Shipping(0.0, 1.0)
      && TAXED_BARGAIN.candidate == Candidate(None, None, Some(10.0), None, None)
      && TAXED_BARGAIN.market == Market(Some(100.0), Some(100.0), Some(100.0), None)
  {}

  lemma {:induction false} BargainCostsBeforeTax()
    ensures CostsBeforeTax(TAXED_BARGAIN, 100.0) == 0.0
  {
    hide Round2, Share, TAXED_BARGAIN, WholeCents;
    BargainRates();
    ShareOfZeroRate(100.0);
    ShareOfZeroRate(0.0);
    ZeroIsWhole();
    WholeMeans(0.0);
    assert RiskReserve(TAXED_BARGAIN, 100.0) == 0.0;
    assert ShippingEstimate(TAXED_BARGAIN) == 0.0;
  }

  lemma {:induction false} BargainCosts(price: real, tax: int)
    requires Share(price, 0.1) == Dollars(tax)
    ensures VariableCosts(TAXED_BARGAIN, 100.0, price) == Dollars(tax)
  {
    hide Round2, Share, TAXED_BARGAIN, WholeCents, CostsBeforeTax;
    BargainRates();
    BargainCostsBeforeTax();
    CentsOfDollars(tax);
    WholeMeans(Dollars(tax));
  }

  lemma {:induction false} RoundedAmount(amount: real, cents: int)
    requires amount == Dollars(cents)
    ensures Round2(amount) == amount
  {
    CentsOfDollars(cents);
    WholeMeans(amount);
  }

  lemma {:induction false} ProfitFromCosts(x: Input, resale: real, price: real, net: int, profit: int)
    requires resale - VariableCosts(x, resale, price) == Dollars(net) && Dollars(net) - price == Dollars(profit)
    ensures NetAt(x, resale, price) == Dollars(net) && ProfitAt(x, resale, price) == Dollars(profit)
  {
    hide Round2, VariableCosts, Dollars;
    RoundedAmount(Dollars(net), net);
    RoundedAmount(Dollars(profit), profit);
  }

  lemma {:induction false} BargainTax()
    ensures Share(10.0, 0.1) == Dollars(100) && Share(79.0, 0.1) == Dollars(790)
  {}

  lemma {:induction false} BargainBid()
    requires NetAt(TAXED_BARGAIN, 100.0, 10.0) == 99.0
    ensures Model(TAXED_BARGAIN).maxBidUsd == Some(79.0)
  {
    hide Round2, TAXED_BARGAIN, Units, CostBasis, Times, NetAt, ProfitAt;
    BargainRates();
    RoundedAmount(10.0, 1000);
    RoundedAmount(79.0, 7900);
    assert EstimatePurchasePrice(TAXED_BARGAIN.candidate, TAXED_BARGAIN.market.soldMedian) == 10.0;
    assert MaxBid(TAXED_BARGAIN, 99.0) == 79.0;
    hide EstimatePurchasePrice, MaxBid;
  }

  /** Its maximum bid of 79 would earn 13.10. */
  lemma {:induction false} MaxBidCanLoseProfit()
    ensures Model(TAXED_BARGAIN).maxBidUsd == Some(79.0)
    ensures ProfitAt(TAXED_BARGAIN, 100.0, 79.0) == 13.1 < TAXED_BARGAIN.policy.minProfitUsd
  {
    hide Model, ProfitAt, NetAt, VariableCosts, Share, TAXED_BARGAIN;
    BargainRates();
    BargainTax();
    BargainCosts(10.0, 100);
    BargainCosts(79.0, 790);
    ProfitFromCosts(TAXED_BARGAIN, 100.0, 10.0, 9900, 8900);
    ProfitFromCosts(TAXED_BARGAIN, 100.0, 79.0, 9210, 1310);
    BargainBid();
  }

  const OUT_OF_REACH := TAXED_BARGAIN.(policy := TAXED_BARGAIN.policy.(minProfitUsd := 200.0))

  /** The same item with 200 to be earned gets a maximum bid of 0, and would earn 100. */
  lemma {:induction false} ClampedBidCanLoseProfit()
    ensures Model(OUT_OF_REACH).maxBidUsd == Some(0.0)
    ensures ProfitAt(OUT_OF_REACH, 100.0, 0.0) == 100.0 < OUT_OF_REACH.policy.minProfitUsd
  {
    hide Model, ProfitAt, NetAt, VariableCosts, Share, TAXED_BARGAIN;
    BargainRates();
    BargainTax();
    ShareOfNothing(0.1);
    BargainCosts(10.0, 100);
    BargainCosts(0.0, 0);
    ProfitFromCosts(TAXED_BARGAIN, 100.0, 10.0, 9900, 8900);
    ProfitFromCosts(TAXED_BARGAIN, 100.0, 0.0, 10000, 10000);
    SameCosts(100.0, 10.0);
    SameCosts(100.0, 0.0);
    OutOfReachBid();
  }

  lemma {:induction false} ShareOfNothing(rate: real)
    ensures Share(0.0, rate) == 0.0
  {}

  /** The required profit plays no part in costs and profits. */
  lemma {:induction false} SameCosts(resale: real, price: real)
    ensures NetAt(OUT_OF_REACH, resale, price) == NetAt(TAXED_BARGAIN, resale, price)
    ensures ProfitAt(OUT_OF_REACH, resale, price) == ProfitAt(TAXED_BARGAIN, resale, price)
  {
    hide Round2, Share;
  }

  lemma {:induction false} OutOfReachBid()
    requires NetAt(OUT_OF_REACH, 100.0, 10.0) == 99.0
    ensures Model(OUT_OF_REACH).maxBidUsd == Some(0.0)
  {
    hide Round2, TAXED_BARGAIN, Units, CostBasis, Times, NetAt, ProfitAt;
    BargainRates();
    RoundedAmount(10.0, 1000);
    RoundedAmount(0.0, 0);
    assert EstimatePurchasePrice(OUT_OF_REACH.candidate, OUT_OF_REACH.market.soldMedian) == 10.0;
    assert MaxBid(OUT_OF_REACH, 99.0) == 0.0;
    hide EstimatePurchasePrice, MaxBid;
  }

  // ---------- the capital stays within its limits ----------

  lemma {:induction false} TimesIsWhole(units: nat, amount: real)
    requires WholeCents(amount)
    ensures WholeCents(Times(units, amount))
  {
    if units == 0 {
      ZeroIsWhole();
    } else {
      TimesIsWhole(units - 1, amount);
      assert Times(units, amount) == Times(units - 1, amount) + amount;
      WholeSum(Times(units - 1, amount), amount);
    }
  }

  lemma {:induction false} ScaleMonotone(a: real, b: real, k: real)
    requires a <= b && k >= 0.0
    ensures a * k <= b * k
  {}

  lemma {:induction false} ScaleStrict(a: real, b: real, k: real)
    requires a < b && k > 0.0
    ensures a * k < b * k
  {}

  lemma {:induction false} TimesMonotone(units: nat, more: nat, amount: real)
    requires units <= more && amount >= 0.0
    ensures Times(units, amount) <= Times(more, amount)
  {
    ScaleMonotone(units as real, more as real, amount);
  }

  lemma {:induction false} TimesAgainst(limit: real, basis: real, units: nat)
    requires basis > 0.0
    ensures units as real <= limit / basis ==> Times(units, basis) <= limit
    ensures limit / basis < units as real ==> limit < Times(units, basis)
  {
    var ratio, count := limit / basis, units as real;
    var product := Times(units, basis);
    assert product == count * basis;
    hide Times;
    assert ratio * basis == limit;
    if count <= ratio {
      ScaleMonotone(count, ratio, basis);
      assert product <= limit;
    } else {
      ScaleStrict(ratio, count, basis);
      assert limit < product;
    }
  }

  lemma {:induction false} AffordableFits(limit: real, basis: real)
    requires limit >= 0.0 && basis > 0.0
    ensures var units := AffordableUnits(limit, basis);
      0 <= units && Times(units, basis) <= limit < Times(units + 1, basis)
  {
    var ratio := limit / basis;
    assert ratio >= 0.0;
    TimesAgainst(limit, basis, ratio.Floor);
    TimesAgainst(limit, basis, ratio.Floor + 1);
  }

  lemma {:induction false} UnitsFit(limit: real, basis: real, units: nat)
    requires limit >= 0.0 && basis > 0.0
    ensures units <= AffordableUnits(limit, basis) ==> Times(units, basis) <= limit
    ensures units >= AffordableUnits(limit, basis) ==> limit < Times(units + 1, basis)
  {
    hide Times, AffordableUnits;
    AffordableFits(limit, basis);
    var affordable := AffordableUnits(limit, basis);
    if units <= affordable {
      TimesMonotone(units, affordable, basis);
    }
    if units >= affordable {
      TimesMonotone(affordable + 1, units + 1, basis);
    }
  }

  /** The capital a decision asks for is whole cents, is never above the cash reserve limit or
      the per-item limit, and one more available unit would be above one of them. */
  lemma {:induction false} CapitalWithinLimits(x: Input)
    ensures var r := Model(x);
      && WholeCents(r.deployableCapitalUsd) && 0.0 <= r.deployableCapitalUsd
      && r.deployableCapitalUsd <= ReserveLimit(x) && r.deployableCapitalUsd <= ItemLimit(x)
      && 0 <= r.deployableUnits <= Quantity(x.candidate)
    ensures var price, resale := EstimatePurchasePrice(x.candidate, x.market.soldMedian), ResaleForModel(x.market);
      Truthy(resale) && price > 0.0 ==>
        var basis := CostBasis(x, resale.value, price);
        && Model(x).deployableCapitalUsd == Times(Model(x).deployableUnits, basis)
        && (basis > 0.0 && Model(x).deployableUnits < Quantity(x.candidate) ==>
              MinR(ReserveLimit(x), ItemLimit(x)) < Times(Model(x).deployableUnits + 1, basis))
  {
    ZeroIsWhole();
    var price, resale := EstimatePurchasePrice(x.candidate, x.market.soldMedian), ResaleForModel(x.market);
    if Truthy(resale) && price > 0.0 {
      hide WholeCents, Round2, VariableCosts, NetAt, ProfitAt, EstimatePurchasePrice, ResaleForModel, Times;
      var basis := CostBasis(x, resale.value, price);
      RoundIsWhole(price + VariableCosts(x, resale.value, price));
      CapitalOf(x, basis);
    }
  }

  lemma {:induction false} TimesZero(amount: real)
    ensures Times(0, amount) == 0.0
  {}

  lemma {:induction false} LimitsNotNegative(x: Input)
    ensures ReserveLimit(x) >= 0.0 && ItemLimit(x) >= 0.0
  {}

  lemma {:induction false} CapitalOf(x: Input, basis: real)
    requires WholeCents(basis)
    ensures var limit, units := MinR(ReserveLimit(x), ItemLimit(x)), Units(x, basis);
      && Round2(Times(units, basis)) == Times(units, basis) && WholeCents(Times(units, basis))
      && 0.0 <= Times(units, basis) <= limit
      && (basis > 0.0 && units < Quantity(x.candidate) ==> limit < Times(units + 1, basis))
  {
    var limit, units := MinR(ReserveLimit(x), ItemLimit(x)), Units(x, basis);
    TimesIsWhole(units, basis);
    hide WholeCents, Round2, ReserveLimit, ItemLimit, Times;
    WholeMeans(Times(units, basis));
    TimesZero(basis);
    LimitsNotNegative(x);
    if basis > 0.0 {
      UnitsFit(limit, basis, units);
      TimesMonotone(0, units, basis);
    }
  }

  /** Portfolios of such decisions conserve money to the cent, whatever the cash on hand. */
  lemma {:induction false} ModelledPortfolioConserves(cash: real, ds: seq<Portfolio.Decision>, inputs: seq<Input>)
    requires |ds| == |inputs|
    requires forall i :: 0 <= i < |ds| ==> ds[i].deployableCapitalUsd == Model(inputs[i]).deployableCapitalUsd
    ensures var r := Portfolio.Allocate(cash, ds);
      r.allocatedUsd == Portfolio.TotalPaid(r.lines) && r.allocatedUsd + r.remainingUsd == Round2(cash)
  {
    hide Model, WholeCents, Round2;
    forall d <- ds
      ensures WholeCents(Portfolio.Required(d))
    {
      var i :| 0 <= i < |ds| && ds[i] == d;
      CapitalWithinLimits(inputs[i]);
    }
    Portfolio.WholeCapitalsConserved(cash, ds);
  }

  // ---------- what the outputs are, on the inputs themselves ----------

  predicate Positive(x: Option<real>) {
    x.Some? && x.value > 0.0
  }

  /** `x` is the largest of three amounts. */
  predicate Largest(x: real, a: real, b: real, c: real) {
    a <= x && b <= x && c <= x && (x == a || x == b || x == c)
  }

  /** The price to pay, before rounding: the buy-now price; or what an auction may rise to, the
      largest of 1.75 times the bid, the bid and 25, and 35 % of what the item sells for; or
      the current price; or none. Amounts that are not positive count as missing. */
  predicate IsPurchase(c: Candidate, soldMedian: Option<real>, exact: real) {
    if Positive(c.buyNowPrice) then exact == c.buyNowPrice.value
    else if Positive(c.currentBidPrice) then
      Largest(exact, 1.75 * c.currentBidPrice.value, c.currentBidPrice.value + 25.0,
              if Positive(soldMedian) then 0.35 * soldMedian.value else 0.0)
    else if Positive(c.currentPrice) then exact == c.currentPrice.value
    else exact == 0.0
  }

  lemma {:induction false} PurchaseLaw(x: Input)
    ensures exists exact :: IsPurchase(x.candidate, x.market.soldMedian, exact)
                            && NearestCent(Model(x).estimatedPurchasePriceUsd, exact)
  {
    var c, median := x.candidate, x.market.soldMedian;
    var price := Model(x).estimatedPurchasePriceUsd;
    assert price == EstimatePurchasePrice(c, median);
    hide Model;
    if Positive(c.buyNowPrice) {
      PurchaseIs(x, c.buyNowPrice.value, price);
    } else if Positive(c.currentBidPrice) {
      var bid := c.currentBidPrice.value;
      var compFloor := if Positive(median) then median.value * 0.35 else 0.0;
      PurchaseIs(x, MaxR(MaxR(bid * 1.75, compFloor), bid + 25.0), price);
    } else if Positive(c.currentPrice) {
      PurchaseIs(x, c.currentPrice.value, price);
    } else {
      assert NearestCent(0.0, 0.0);
      assert IsPurchase(c, median, 0.0);
    }
  }

  lemma {:induction false} PurchaseIs(x: Input, exact: real, price: real)
    requires IsPurchase(x.candidate, x.market.soldMedian, exact) && price == Round2(exact)
    ensures exists exact :: IsPurchase(x.candidate, x.market.soldMedian, exact) && NearestCent(price, exact)
  {
    RoundIsNearestCent(price, exact);
  }

  /** There is a price to pay, and a comparable price that is not zero. */
  predicate Modelled(x: Input) {
    var m := x.market;
    && Model(x).estimatedPurchasePriceUsd > 0.0
    && (m.soldP25 !in {None, Some(0.0)} || m.soldMedian !in {None, Some(0.0)} || m.activeMedian !in {None, Some(0.0)})
  }

  /** An item is modelled exactly when it has a price to pay and a comparable price; otherwise
      nothing but the purchase price is reported. */
  lemma {:induction false} ModelledIff(x: Input)
    ensures var r := Model(x);
      && (r.expectedNetUsd.Some? <==> Modelled(x))
      && (r.estimatedProfitUsd.Some? <==> Modelled(x)) && (r.maxBidUsd.Some? <==> Modelled(x))
      && (!Modelled(x) ==>
            r == Output(r.estimatedPurchasePriceUsd, None, None, None, None, None, None, 0, 0.0, 0.0))
  {
    hide EstimatePurchasePrice, NetAt, ProfitAt, CostBasis, Units, Times, MaxBid, Round2;
  }

  predicate NearestIfAny(x: Option<real>, exact: Option<real>) {
    x.Some? == exact.Some? && (x.Some? ==> NearestCent(x.value, exact.value))
  }

  /** The resale value the model reckons with: the lower quartile, or 92 % of the sold median, or
      82 % of the active one, whichever is the first that is not zero. */
  predicate IsConservative(m: Market, exact: real) {
    if m.soldP25 !in {None, Some(0.0)} then m.soldP25 == Some(exact)
    else if m.soldMedian !in {None, Some(0.0)} then exact == 0.92 * m.soldMedian.value
    else m.activeMedian.Some? && exact == 0.82 * m.activeMedian.value
  }

  /** The three resale values of a modelled item, to the cent. */
  lemma {:induction false} ResaleLaw(x: Input)
    requires Modelled(x)
    ensures var r, m := Model(x), x.market;
      && (m.soldP75.Some? ==> NearestIfAny(r.aggressiveResaleUsd, m.soldP75))
      && (m.soldP75.None? ==> r.aggressiveResaleUsd == r.expectedResaleUsd)
      && (m.soldMedian.Some? ==> NearestIfAny(r.expectedResaleUsd, m.soldMedian))
      && (m.soldMedian.None? ==> NearestIfAny(r.expectedResaleUsd, m.activeMedian))
      && r.conservativeResaleUsd.Some?
      && exists exact :: IsConservative(m, exact) && NearestCent(r.conservativeResaleUsd.value, exact)
  {
    var r, m := Model(x), x.market;
    ResaleIs(x);
    hide Model;
    ShownIs(AggressiveResale(m));
    ShownIs(ExpectedResale(m));
    ShownIs(ConservativeResale(m));
    assert IsConservative(m, ConservativeResale(m).value);
    hide NearestCent, Round2;
  }

  lemma {:induction false} ResaleIs(x: Input)
    requires Modelled(x)
    ensures var r, m := Model(x), x.market;
      && r.aggressiveResaleUsd == Shown(AggressiveResale(m)) && r.expectedResaleUsd == Shown(ExpectedResale(m))
      && r.conservativeResaleUsd == Shown(ConservativeResale(m)) && ConservativeResale(m).Some?
  {
    hide EstimatePurchasePrice, NetAt, ProfitAt, CostBasis, Units, Times, MaxBid, Round2;
  }

  lemma {:induction false} ShownIs(x: Option<real>)
    ensures NearestIfAny(Shown(x), x)
  {
    if x.Some? {
      RoundIsNearestCent(Round2(x.value), x.value);
    }
  }

  /** The items of the costs before each is rounded. */
  function ExactFees(x: Input, resale: real): real {
    resale * x.policy.marketplaceFeeRate + resale * x.policy.paymentFeeRate
  }

  function ExactRisk(x: Input, resale: real): real {
    var p := x.policy;
    var rates := p.returnRiskRate + p.disputeRiskRate + p.damageRiskRate + p.insuranceReserveRate
      + p.carrierRiskRate * (1.0 - x.shipping.confidence);
    resale * rates + if resale >= 250.0 then p.signatureReserveUsd else 0.0
  }

  function ExactCosts(x: Input, price: real, fees: real, shipping: real, risk: real): real {
    var p := x.policy;
    price * p.salesTaxRate + p.packagingCostUsd + p.warehouseHandlingUsd + p.storageReserveUsd + fees + shipping + risk
  }

  /** The items of the costs, each to the cent. */
  predicate Itemized(x: Input, resale: real, price: real,
                     fees: real, inbound: real, shipping: real, risk: real, costs: real) {
    && NearestCent(fees, ExactFees(x, resale))
    && NearestCent(inbound, match x.candidate.inboundShippingUsd case Some(usd) => usd case None => 0.0)
    && NearestCent(shipping, inbound + x.shipping.outboundUsd + x.policy.shippingBufferUsd)
    && NearestCent(risk, ExactRisk(x, resale))
    && NearestCent(costs, ExactCosts(x, price, fees, shipping, risk))
  }

  ghost predicate CostsAre(x: Input, resale: real, price: real, costs: real) {
    exists fees, inbound, shipping, risk :: Itemized(x, resale, price, fees, inbound, shipping, risk, costs)
  }

  lemma {:induction false} FeesAre(x: Input, resale: real)
    ensures ExactFees(x, resale) ==
            Share(resale, x.policy.marketplaceFeeRate) + Share(resale, x.policy.paymentFeeRate)
  {}

  lemma {:induction false} SumOfShares(resale: real, a: real, b: real, c: real, d: real, e: real)
    ensures resale * (a + b + c + d + e) ==
            Share(resale, a) + Share(resale, b) + Share(resale, c) + Share(resale, d) + Share(resale, e)
  {}

  lemma {:induction false} ShareOfShare(amount: real, rate: real, part: real)
    ensures Share(Share(amount, rate), part) == Share(amount, rate * part)
  {}

  lemma {:induction false} RiskSum(x: Input, resale: real)
    ensures var p := x.policy;
      ExactRisk(x, resale) ==
        Share(resale, p.returnRiskRate) + Share(resale, p.disputeRiskRate) + Share(resale, p.damageRiskRate)
        + Share(resale, p.insuranceReserveRate) + (if resale >= 250.0 then p.signatureReserveUsd else 0.0)
        + Share(Share(resale, p.carrierRiskRate), 1.0 - x.shipping.confidence)
  {
    var p, doubt := x.policy, 1.0 - x.shipping.confidence;
    SumOfShares(resale, p.returnRiskRate, p.disputeRiskRate, p.damageRiskRate, p.insuranceReserveRate,
                p.carrierRiskRate * doubt);
    ShareOfShare(resale, p.carrierRiskRate, doubt);
    hide Share;
  }

  lemma {:induction false} RiskIs(x: Input, resale: real)
    ensures NearestCent(RiskReserve(x, resale), ExactRisk(x, resale))
  {
    RiskSum(x, resale);
    hide Share, Round2, NearestCent, ExactRisk;
    assert RiskReserve(x, resale) == Round2(ExactRisk(x, resale));
    RoundIsNearestCent(RiskReserve(x, resale), ExactRisk(x, resale));
  }

  lemma {:induction false} CostsSum(x: Input, resale: real, price: real)
    ensures CostsBeforeTax(x, resale) + Share(price, x.policy.salesTaxRate) ==
            ExactCosts(x, price, Round2(ExactFees(x, resale)), ShippingEstimate(x), RiskReserve(x, resale))
  {
    FeesAre(x, resale);
    hide ExactFees, ShippingEstimate, RiskReserve, Round2;
    assert CostsBeforeTax(x, resale) == Round2(ExactFees(x, resale)) + ShippingEstimate(x) + x.policy.packagingCostUsd
      + x.policy.warehouseHandlingUsd + x.policy.storageReserveUsd + RiskReserve(x, resale);
    hide CostsBeforeTax;
  }

  lemma {:induction false} ShippingIs(x: Input, inbound: real)
    requires inbound == Round2(match x.candidate.inboundShippingUsd case Some(usd) => usd case None => 0.0)
    ensures NearestCent(ShippingEstimate(x), inbound + x.shipping.outboundUsd + x.policy.shippingBufferUsd)
  {
    var exact := inbound + x.shipping.outboundUsd + x.policy.shippingBufferUsd;
    RoundIsNearestCent(Round2(exact), exact);
    hide Round2, NearestCent;
  }

  lemma {:induction false} CostsLaw(x: Input, resale: real, price: real)
    ensures CostsAre(x, resale, price, VariableCosts(x, resale, price))
  {
    var inboundExact := match x.candidate.inboundShippingUsd case Some(usd) => usd case None => 0.0;
    var fees, inbound, shipping, risk :=
      Round2(ExactFees(x, resale)), Round2(inboundExact), ShippingEstimate(x), RiskReserve(x, resale);
    var costs, costsExact := VariableCosts(x, resale, price), ExactCosts(x, price, fees, shipping, risk);
    CostsSum(x, resale, price);
    assert costs == Round2(costsExact);
    hide Round2, RiskReserve, NearestCent, ExactFees, ExactRisk, ShippingEstimate, VariableCosts, ExactCosts;
    RoundIsNearestCent(fees, ExactFees(x, resale));
    RoundIsNearestCent(inbound, inboundExact);
    ShippingIs(x, inbound);
    RiskIs(x, resale);
    RoundIsNearestCent(costs, costsExact);
    assert Itemized(x, resale, price, fees, inbound, shipping, risk, costs);
  }

  /** What the item earns when it is bought at `price`. */
  ghost predicate Earns(x: Input, resale: real, price: real, costs: real, net: real, profit: real) {
    && CostsAre(x, resale, price, costs)
    && NearestCent(net, resale - costs) && NearestCent(profit, net - price)
  }

  lemma {:induction false} ProfitMeans(x: Input, resale: real, price: real)
    ensures Earns(x, resale, price,
                  VariableCosts(x, resale, price), NetAt(x, resale, price), ProfitAt(x, resale, price))
  {
    CostsLaw(x, resale, price);
    RoundIsNearestCent(NetAt(x, resale, price), resale - VariableCosts(x, resale, price));
    RoundIsNearestCent(ProfitAt(x, resale, price), NetAt(x, resale, price) - price);
    hide Round2, VariableCosts, NearestCent, CostsAre;
  }

  /** So many units at `basis` each are within the cash reserve and the share of one item. */
  predicate Fits(x: Input, basis: real, units: int) {
    && units as real * basis <= x.cashOnHandUsd * (1.0 - x.policy.cashReservePct)
    && units as real * basis <= x.cashOnHandUsd * x.policy.maxItemCapitalPct
  }

  /** As many units as there are and fit; one is there when the candidate names none. */
  predicate UnitsAre(x: Input, basis: real, units: int) {
    var q := x.candidate.quantityAvailable;
    var available := if q.Some? && q.value >= 1 then q.value else 1;
    && 0 <= units <= available
    && (basis <= 0.0 ==> units == 0)
    && (basis > 0.0 ==> (units > 0 ==> Fits(x, basis, units)) && (units < available ==> !Fits(x, basis, units + 1)))
  }

  lemma {:induction false} UnitsLaw(x: Input, basis: real)
    ensures UnitsAre(x, basis, Units(x, basis))
  {
    var units := Units(x, basis);
    if basis > 0.0 {
      var a := Share(x.cashOnHandUsd, 1.0 - x.policy.cashReservePct);
      var b := Share(x.cashOnHandUsd, x.policy.maxItemCapitalPct);
      var limit := MinR(MaxR(0.0, a), MaxR(0.0, b));
      UnitsFit(limit, basis, units);
      FitsIff(x, basis, units);
      FitsIff(x, basis, units + 1);
      TimesPositive(units, basis);
      TimesPositive(units + 1, basis);
      hide Times, Share, AffordableUnits, Fits;
    }
  }

  lemma {:induction false} FitsIff(x: Input, basis: real, units: nat)
    ensures Fits(x, basis, units) <==>
      && Times(units, basis) <= Share(x.cashOnHandUsd, 1.0 - x.policy.cashReservePct)
      && Times(units, basis) <= Share(x.cashOnHandUsd, x.policy.maxItemCapitalPct)
  {}

  lemma {:induction false} TimesPositive(units: nat, amount: real)
    requires amount > 0.0
    ensures Times(units, amount) >= 0.0 && (units > 0 ==> Times(units, amount) > 0.0)
  {
    if units > 0 {
      ScaleStrict(0.0, units as real, amount);
    }
  }

  predicate IsProduct(total: real, units: int, amount: real) {
    total == units as real * amount
  }

  /** The outputs of a modelled item, given the resale value reckoned with and the costs. */
  ghost predicate Booked(x: Input, r: Output, resale: real, costs: real) {
    var price, min := r.estimatedPurchasePriceUsd, x.policy.minProfitUsd;
    && IsConservative(x.market, resale) && CostsAre(x, resale, price, costs)
    && r.expectedNetUsd.Some? && NearestCent(r.expectedNetUsd.value, resale - costs)
    && r.estimatedProfitUsd == Some(r.expectedNetUsd.value - price)
    && r.maxBidUsd.Some?
    && (if r.expectedNetUsd.value <= min then r.maxBidUsd.value == 0.0
        else NearestCent(r.maxBidUsd.value, r.expectedNetUsd.value - min))
    && UnitsAre(x, price + costs, r.deployableUnits)
    && IsProduct(r.deployableCapitalUsd, r.deployableUnits, price + costs)
    && IsProduct(r.deployableProfitUsd, r.deployableUnits, r.estimatedProfitUsd.value)
  }

  lemma {:induction false} OutputsAre(x: Input)
    requires Modelled(x)
    ensures ConservativeResale(x.market).Some?
    ensures var r, resale, price := Model(x), ConservativeResale(x.market).value, Model(x).estimatedPurchasePriceUsd;
      var basis, profit := CostBasis(x, resale, price), ProfitAt(x, resale, price);
      && price == EstimatePurchasePrice(x.candidate, x.market.soldMedian)
      && r.expectedNetUsd == Some(NetAt(x, resale, price)) && r.estimatedProfitUsd == Some(profit)
      && r.maxBidUsd == Some(MaxBid(x, NetAt(x, resale, price)))
      && r.deployableUnits == Units(x, basis)
      && r.deployableCapitalUsd == Round2(Times(Units(x, basis), basis))
      && r.deployableProfitUsd == Round2(Times(Units(x, basis), profit))
  {
    ResaleIs(x);
    hide EstimatePurchasePrice, NetAt, ProfitAt, CostBasis, Units, Times, MaxBid, Round2;
  }

  lemma {:induction false} NetAndProfit(x: Input, resale: real, price: real)
    requires WholeCents(price)
    ensures var costs, net := VariableCosts(x, resale, price), NetAt(x, resale, price);
      && NearestCent(net, resale - costs)
      && ProfitAt(x, resale, price) == net - price && CostBasis(x, resale, price) == price + costs
      && WholeCents(net - price) && WholeCents(price + costs)
  {
    NetIsExact(x, resale, price);
    RoundIsNearestCent(NetAt(x, resale, price), resale - VariableCosts(x, resale, price));
    hide VariableCosts, NearestCent, Round2, WholeCents;
    WholeSum(NetAt(x, resale, price), price);
    WholeSum(price, VariableCosts(x, resale, price));
  }

  /** Every modelled item is booked so. */
  lemma {:induction false} ModelLaw(x: Input)
    requires Modelled(x)
    ensures exists resale, costs :: Booked(x, Model(x), resale, costs)
  {
    var r, price := Model(x), Model(x).estimatedPurchasePriceUsd;
    OutputsAre(x);
    PriceIsWhole(x);
    var resale := ConservativeResale(x.market).value;
    assert IsConservative(x.market, resale);
    var costs, net := VariableCosts(x, resale, price), NetAt(x, resale, price);
    hide Model, VariableCosts, CostsAre, UnitsAre, Units, Times, NetAt, ProfitAt, CostBasis, Round2, NearestCent,
      MaxBid, EstimatePurchasePrice, ConservativeResale, IsConservative, WholeCents, IsProduct, Modelled;
    CostsLaw(x, resale, price);
    NetAndProfit(x, resale, price);
    BidIs(x, net);
    UnitsLaw(x, price + costs);
    UnitsAreWhole(Units(x, price + costs), price + costs);
    UnitsAreWhole(Units(x, price + costs), net - price);
    assert Booked(x, r, resale, costs);
  }

  lemma {:induction false} PriceIsWhole(x: Input)
    ensures WholeCents(Model(x).estimatedPurchasePriceUsd)
  {
    var price := EstimatePurchasePrice(x.candidate, x.market.soldMedian);
    assert Model(x).estimatedPurchasePriceUsd == price;
    PurchaseLaw(x);
    var exact :| IsPurchase(x.candidate, x.market.soldMedian, exact)
                 && NearestCent(Model(x).estimatedPurchasePriceUsd, exact);
    RoundIsNearestCent(price, exact);
    RoundIsWhole(exact);
  }

  lemma {:induction false} BidIs(x: Input, net: real)
    ensures var min, bid := x.policy.minProfitUsd, MaxBid(x, net);
      if net <= min then bid == 0.0 else NearestCent(bid, net - min)
  {
    RoundIsNearestCent(MaxBid(x, net), MaxR(0.0, net - x.policy.minProfitUsd));
  }

  lemma {:induction false} UnitsAreWhole(units: nat, amount: real)
    requires WholeCents(amount)
    ensures IsProduct(Round2(Times(units, amount)), units, amount)
  {
    TimesIsWhole(units, amount);
    WholeMeans(Times(units, amount));
  }

  /** Six roundings come to three cents at most: the expected net differs by no more from the
      resale value less the unrounded costs. */
  lemma {:induction false} NetWithinThreeCents(x: Input, resale: real, price: real)
    ensures var p := x.policy;
      var inbound := match x.candidate.inboundShippingUsd case Some(usd) => usd case None => 0.0;
      var shipping := inbound + x.shipping.outboundUsd + p.shippingBufferUsd;
      var rates := p.marketplaceFeeRate + p.paymentFeeRate + p.returnRiskRate + p.disputeRiskRate + p.damageRiskRate
        + p.insuranceReserveRate + p.carrierRiskRate * (1.0 - x.shipping.confidence);
      var reserves := p.packagingCostUsd + p.warehouseHandlingUsd + p.storageReserveUsd
        + if resale >= 250.0 then p.signatureReserveUsd else 0.0;
      var exact := resale - resale * rates - shipping - reserves - price * p.salesTaxRate;
      -0.03 <= NetAt(x, resale, price) - exact <= 0.03
  {
    ProfitMeans(x, resale, price);
    var costs := VariableCosts(x, resale, price);
    var fees, inbound, shipping, risk :| Itemized(x, resale, price, fees, inbound, shipping, risk, costs);
    hide NetAt, VariableCosts, NearestCent, ExactCosts, ExactRisk, ExactFees;
    IsNear(fees, ExactFees(x, resale));
    IsNear(inbound, match x.candidate.inboundShippingUsd case Some(usd) => usd case None => 0.0);
    IsNear(shipping, inbound + x.shipping.outboundUsd + x.policy.shippingBufferUsd);
    IsNear(risk, ExactRisk(x, resale));
    IsNear(costs, ExactCosts(x, price, fees, shipping, risk));
    IsNear(NetAt(x, resale, price), resale - costs);
    ExactSum(x, resale, price, fees, shipping, risk);
  }

  lemma {:induction false} IsNear(x: real, exact: real)
    requires NearestCent(x, exact)
    ensures x - 0.005 <= exact <= x + 0.005
  {}

  lemma {:induction false} ExactSum(x: Input, resale: real, price: real, fees: real, shipping: real, risk: real)
    ensures var p := x.policy;
      var rates := p.marketplaceFeeRate + p.paymentFeeRate + p.returnRiskRate + p.disputeRiskRate + p.damageRiskRate
        + p.insuranceReserveRate + p.carrierRiskRate * (1.0 - x.shipping.confidence);
      var reserves := p.packagingCostUsd + p.warehouseHandlingUsd + p.storageReserveUsd
        + if resale >= 250.0 then p.signatureReserveUsd else 0.0;
      ExactCosts(x, price, fees, shipping, risk) - fees - shipping - risk + ExactFees(x, resale) + ExactRisk(x, resale)
        == resale * rates + reserves + price * p.salesTaxRate
  {}

  /** For a modelled item whose required profit is whole cents and attainable, buying at the
      reported maximum bid earns it exactly when the reported profit is no higher, or the extra
      tax is lost in rounding. */
  lemma {:induction false} ReportedBidPreservesIff(x: Input)
    requires Modelled(x) && WholeCents(x.policy.minProfitUsd) && x.policy.salesTaxRate >= 0.0
    requires Model(x).expectedNetUsd.Some? && Model(x).expectedNetUsd.value >= x.policy.minProfitUsd
    ensures ConservativeResale(x.market).Some? && Model(x).maxBidUsd.Some? && Model(x).estimatedProfitUsd.Some?
    ensures var r, resale := Model(x), ConservativeResale(x.market).value;
      var bid, price := r.maxBidUsd.value, r.estimatedPurchasePriceUsd;
      ProfitAt(x, resale, bid) >= x.policy.minProfitUsd <==>
        || r.estimatedProfitUsd.value <= x.policy.minProfitUsd
        || VariableCosts(x, resale, bid) == VariableCosts(x, resale, price)
  {
    OutputsAre(x);
    PriceIsWhole(x);
    hide Model, Modelled, WholeCents, NetAt, ProfitAt, VariableCosts, MaxBid;
    MaxBidPreservesProfitFromInput(x, ConservativeResale(x.market).value, Model(x).estimatedPurchasePriceUsd);
  }

  // ---------- the quartiles, on the prices themselves ----------

  /** `r` is the nearest cent to the value a share `q` of the way up the ranks of `values`,
      interpolated between the two ranks around it. */
  ghost predicate IsQuantile(values: seq<real>, q: real, r: real) {
    exists k: nat, weight: real :: Between(|values|, q, k, weight) &&
      NearestCent(r, (1.0 - weight) * values[k] + weight * values[if k + 1 < |values| then k + 1 else k])
  }

  /** The share `q` of the ranks of `n` values is `weight` above rank `k`. */
  predicate Between(n: nat, q: real, k: nat, weight: real) {
    k < n && 0.0 <= weight < 1.0 && k as real + weight == (n - 1) as real * q
  }

  /** `ps` are the prices above zero, in ascending order. */
  ghost predicate PositivesOf(ps: seq<real>, prices: seq<real>) {
    Ascending(ps) && forall x :: multiset(ps)[x] == if x > 0.0 then multiset(prices)[x] else 0
  }

  lemma {:induction false} ValidPricesAre(prices: seq<real>)
    ensures forall x :: multiset(ValidPrices(prices))[x] == if x > 0.0 then multiset(prices)[x] else 0
  {
    if prices != [] {
      ValidPricesAre(prices[1..]);
      assert prices == [prices[0]] + prices[1..];
    }
  }

  lemma {:induction false} SortedPricesIs(prices: seq<real>, ps: seq<real>)
    requires PositivesOf(ps, prices)
    ensures SortedPrices(prices) == ps
  {
    ValidPricesAre(prices);
    SortedAscends(ValidPrices(prices));
    assert multiset(ps) == multiset(SortedPrices(prices)) by {
      assert forall x :: multiset(ps)[x] == multiset(ValidPrices(prices))[x];
    }
    AscendingIsUnique(ps, SortedPrices(prices));
  }

  lemma {:induction false} QuantileIs(values: seq<real>, q: real)
    requires 0.0 <= q < 1.0
    ensures if values == [] then Quantile(values, q) == None
            else Quantile(values, q).Some? && IsQuantile(values, q, Quantile(values, q).value)
  {
    if values != [] {
      PositionInRange(|values|, q);
      var pos := Position(|values|, q);
      var k := pos.Floor;
      QuantileInterpolates(values, q, k);
      hide Quantile, NearestCent;
      assert Between(|values|, q, k, pos - k as real);
    }
  }

  ghost predicate IsQuantileOf(x: Option<real>, values: seq<real>, q: real) {
    if values == [] then x == None else x.Some? && IsQuantile(values, q, x.value)
  }

  /** The market's quartiles and medians are those of the sold and active prices above zero. */
  lemma {:induction false} MarketLaw(sold: seq<real>, active: seq<real>, ps: seq<real>, qs: seq<real>)
    requires PositivesOf(ps, sold) && PositivesOf(qs, active)
    ensures var m := MarketProfile(sold, active);
      && IsQuantileOf(m.soldP25, ps, 0.25) && IsQuantileOf(m.soldMedian, ps, 0.5) && IsQuantileOf(m.soldP75, ps, 0.75)
      && IsQuantileOf(m.activeMedian, qs, 0.5)
  {
    SortedPricesIs(sold, ps);
    SortedPricesIs(active, qs);
    hide Quantile, IsQuantile, SortedPrices, PositivesOf;
    QuantileIs(ps, 0.25);
    QuantileIs(ps, 0.5);
    QuantileIs(ps, 0.75);
    QuantileIs(qs, 0.5);
  }
}
