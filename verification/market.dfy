/**
 * The category market analysis of the AI router (`GET /ai/market-analysis`).
 *
 * The three database queries become folds over in-memory snapshots of the
 * product and RFQ tables, the clock becomes the `now` parameter (seconds),
 * and the response dictionary becomes the `MarketReport` record.
 */
module Market {
  import opened Aggregates

  /** An explicit absence: what SQL reports as NULL for an aggregate over no rows. */
  datatype Option<T> = None | Some(value: T)

  /** A product listing, reduced to the columns the analysis reads. */
  datatype Product = Product(category: string, price: real, isActive: bool, supplierId: int)

  /** A request for quote; `createdAt` is an instant in seconds. */
  datatype Rfq = Rfq(category: string, createdAt: int)

  const SecondsPerDay: int := 24 * 60 * 60

  /** Width of the trailing demand window: 30 days. */
  const DemandWindowSeconds: int := 30 * SecondsPerDay

  /** Demand is "high" above this many recent RFQs. */
  const HighDemandAbove: nat := 30
  /** Demand is "medium" above this many recent RFQs. */
  const MediumDemandAbove: nat := 10
  /** Competition is "high" above this many active suppliers. */
  const HighCompetitionAbove: nat := 10
  /** Competition is "medium" above this many active suppliers. */
  const MediumCompetitionAbove: nat := 3
  /** Prices are "stable" when (max - min) / avg stays below this ratio. */
  const StableSpreadBelow: real := 0.5

  // ---------------------------------------------------------------------
  // Filter predicates of the three queries
  // ---------------------------------------------------------------------

  /** Rows of the price-statistics query: this category, active, positive price. */
  predicate IsPriced(p: Product, category: string)
  {
    p.category == category && p.isActive && p.price > 0.0
  }

  function PricedIn(category: string): Product -> bool
  {
    p => IsPriced(p, category)
  }

  /** Rows of the supplier query: this category and active, whatever the price. */
  predicate IsActiveIn(p: Product, category: string)
  {
    p.category == category && p.isActive
  }

  function ActiveIn(category: string): Product -> bool
  {
    p => IsActiveIn(p, category)
  }

  /** Rows of the RFQ query: this category, created no earlier than 30 days before `now`. */
  predicate IsRecent(r: Rfq, category: string, now: int)
  {
    r.category == category && r.createdAt >= now - DemandWindowSeconds
  }

  function RecentIn(category: string, now: int): Rfq -> bool
  {
    r => IsRecent(r, category, now)
  }

  // ---------------------------------------------------------------------
  // Price statistics: COUNT, AVG, MIN, MAX over the priced rows
  // ---------------------------------------------------------------------

  /** AVG/MIN/MAX of the priced rows; SQL yields NULL for all three over no rows. */
  datatype PriceSummary = PriceSummary(avg: real, min: real, max: real)

  /** The one row the statistics query returns. */
  datatype ProductStats = ProductStats(total: nat, summary: Option<PriceSummary>)
  {
    /** The shape the query guarantees: NULL aggregates exactly when no row
        qualifies, and otherwise 0 < min <= avg <= max (every price is positive). */
    predicate Valid()
    {
      && (total == 0 <==> summary.None?)
      && (summary.Some? ==> 0.0 < summary.value.min <= summary.value.avg <= summary.value.max)
    }
  }

  function Prices(ps: seq<Product>): (xs: seq<real>)
    ensures |xs| == |ps|
    ensures forall i :: 0 <= i < |ps| ==> xs[i] == ps[i].price
  {
    seq(|ps|, i requires 0 <= i < |ps| => ps[i].price)
  }

  /** The prices the statistics query aggregates, in table order. */
  function QualifyingPrices(products: seq<Product>, category: string): seq<real>
  {
    Prices(Filter(products, PricedIn(category)))
  }

  /** Every aggregated price is the positive price of a priced row, and every
      priced row contributes its price. */
  lemma QualifyingPricesAreThePricedRows(products: seq<Product>, category: string)
    ensures forall j :: 0 <= j < |QualifyingPrices(products, category)| ==>
      QualifyingPrices(products, category)[j] > 0.0 &&
      exists k :: 0 <= k < |products| && IsPriced(products[k], category) &&
        products[k].price == QualifyingPrices(products, category)[j]
    ensures forall k :: 0 <= k < |products| && IsPriced(products[k], category) ==>
      products[k].price in QualifyingPrices(products, category)
  {
    var rows := Filter(products, PricedIn(category));
    var xs := QualifyingPrices(products, category);
    FilterKeepsTheQualifyingRows(products, PricedIn(category));
    forall j | 0 <= j < |xs|
      ensures xs[j] > 0.0
      ensures exists k :: 0 <= k < |products| && IsPriced(products[k], category) && products[k].price == xs[j]
    {
      assert PricedIn(category)(rows[j]);
      assert rows[j] in products;
      var k :| 0 <= k < |products| && products[k] == rows[j];
      assert IsPriced(products[k], category) && products[k].price == xs[j];
    }
    forall k | 0 <= k < |products| && IsPriced(products[k], category)
      ensures products[k].price in xs
    {
      assert PricedIn(category)(products[k]);
      assert products[k] in rows;
      var j :| 0 <= j < |rows| && rows[j] == products[k];
      assert xs[j] == products[k].price;
    }
  }

  /** The statistics query (ai.py lines 72-86). */
  function ComputeProductStats(products: seq<Product>, category: string): (st: ProductStats)
    ensures st.Valid()
    ensures st.total == 0 ==> forall k :: 0 <= k < |products| ==> !IsPriced(products[k], category)
    ensures st.total == |set i: nat | i < |products| && IsPriced(products[i], category)|
    ensures st.summary.Some? ==>
      forall k :: 0 <= k < |products| && IsPriced(products[k], category) ==>
        st.summary.value.min <= products[k].price <= st.summary.value.max
    ensures st.summary.Some? ==>
      exists k :: 0 <= k < |products| && IsPriced(products[k], category) &&
        products[k].price == st.summary.value.min
    ensures st.summary.Some? ==>
      exists k :: 0 <= k < |products| && IsPriced(products[k], category) &&
        products[k].price == st.summary.value.max
    ensures st.summary.Some? ==>
      st.summary.value.avg == SumOf(QualifyingPrices(products, category)) / (st.total as real)
  {
    var xs := QualifyingPrices(products, category);
    CountWhereIsIndexCount(products, PricedIn(category));
    assert IndicesWhere(products, PricedIn(category))
        == set i: nat | i < |products| && IsPriced(products[i], category);
    QualifyingPricesAreThePricedRows(products, category);
    if |xs| == 0 then
      ProductStats(0, None)
    else
      MeanBetweenMinAndMax(xs);
      ProductStats(|xs|, Some(PriceSummary(SumOf(xs) / (|xs| as real), MinOf(xs), MaxOf(xs))))
  }

  // ---------------------------------------------------------------------
  // Demand: RFQs of the category in the trailing 30-day window
  // ---------------------------------------------------------------------

  /** The RFQ query (ai.py lines 89-98). */
  function RecentRfqCount(rfqs: seq<Rfq>, category: string, now: int): (n: nat)
    ensures n == |set i: nat | i < |rfqs| && rfqs[i].category == category
                                && rfqs[i].createdAt >= now - DemandWindowSeconds|
    ensures n <= |rfqs|
  {
    CountWhereIsIndexCount(rfqs, RecentIn(category, now));
    assert IndicesWhere(rfqs, RecentIn(category, now))
        == set i: nat | i < |rfqs| && rfqs[i].category == category
                        && rfqs[i].createdAt >= now - DemandWindowSeconds;
    CountWhere(rfqs, RecentIn(category, now))
  }

  /** The window is closed at its start: an RFQ exactly 30 days old counts,
      one a second older does not, and nothing bounds it from above. */
  lemma RecentRfqWindowEdges(category: string, now: int)
    ensures RecentRfqCount([Rfq(category, now - DemandWindowSeconds)], category, now) == 1
    ensures RecentRfqCount([Rfq(category, now - DemandWindowSeconds - 1)], category, now) == 0
    ensures RecentRfqCount([Rfq(category, now + 1)], category, now) == 1
  {
  }

  /** As the clock moves forward the window slides away from old RFQs, so the count never grows. */
  lemma RecentRfqCountAntitone(rfqs: seq<Rfq>, category: string, earlier: int, later: int)
    requires earlier <= later
    ensures RecentRfqCount(rfqs, category, later) <= RecentRfqCount(rfqs, category, earlier)
  {
    forall r ensures RecentIn(category, later)(r) ==> RecentIn(category, earlier)(r) {
    }
    CountWhereMonotone(rfqs, RecentIn(category, later), RecentIn(category, earlier));
  }

  // ---------------------------------------------------------------------
  // Supply: distinct suppliers with an active listing in the category
  // ---------------------------------------------------------------------

  /** The supplier ids the COUNT(DISTINCT supplier_id) query ranges over
      (ai.py lines 101-109); the price is not filtered here. */
  function ActiveSupplierIds(products: seq<Product>, category: string): (ids: set<int>)
    ensures forall s :: s in ids <==>
      exists i :: 0 <= i < |products| && IsActiveIn(products[i], category) && products[i].supplierId == s
    ensures |ids| <= CountWhere(products, ActiveIn(category))
    ensures |ids| == 0 <==> CountWhere(products, ActiveIn(category)) == 0
    decreases |products|
  {
    if |products| == 0 then {}
    else
      var init := products[..|products|-1];
      var p := products[|products|-1];
      var rest := ActiveSupplierIds(init, category);
      assert forall i :: 0 <= i < |init| ==> init[i] == products[i];
      if IsActiveIn(p, category) then rest + {p.supplierId} else rest
  }

  /** Distinct suppliers never outnumber the active listings of the category. */
  lemma ActiveSuppliersAtMostActiveListings(products: seq<Product>, category: string)
    ensures |ActiveSupplierIds(products, category)|
         <= |set i: nat | i < |products| && IsActiveIn(products[i], category)|
  {
    CountWhereIsIndexCount(products, ActiveIn(category));
    assert IndicesWhere(products, ActiveIn(category))
        == set i: nat | i < |products| && IsActiveIn(products[i], category);
  }

  /** A priced listing is an active one, so when the statistics see a row,
      the supplier count is positive. */
  lemma PricedListingHasActiveSupplier(products: seq<Product>, category: string)
    ensures |set i: nat | i < |products| && IsPriced(products[i], category)| > 0 ==>
      |ActiveSupplierIds(products, category)| > 0
  {
    forall p ensures PricedIn(category)(p) ==> ActiveIn(category)(p) {
    }
    CountWhereMonotone(products, PricedIn(category), ActiveIn(category));
    CountWhereIsIndexCount(products, PricedIn(category));
    assert IndicesWhere(products, PricedIn(category))
        == set i: nat | i < |products| && IsPriced(products[i], category);
  }

  // ---------------------------------------------------------------------
  // Classification
  // ---------------------------------------------------------------------

  datatype Level = Low | Medium | High
  {
    /** The string the response carries. */
    function Label(): string
    {
      match this
      case Low => "low"
      case Medium => "medium"
      case High => "high"
    }

    function Rank(): nat
    {
      match this
      case Low => 0
      case Medium => 1
      case High => 2
    }
  }

  datatype Stability = Stable | Volatile
  {
    /** The string the response carries. */
    function Label(): string
    {
      match this
      case Stable => "stable"
      case Volatile => "volatile"
    }
  }

  /** The three-band rule both levels use: strictly above `highAbove` is high,
      strictly above `mediumAbove` is medium, anything else is low. */
  function Classify(n: nat, mediumAbove: nat, highAbove: nat): (l: Level)
    requires mediumAbove <= highAbove
    ensures l == High <==> highAbove < n
    ensures l == Medium <==> mediumAbove < n <= highAbove
    ensures l == Low <==> n <= mediumAbove
  {
    if n > highAbove then High else if n > mediumAbove then Medium else Low
  }

  /** A larger count never yields a lower level. */
  lemma ClassifyMonotone(n: nat, m: nat, mediumAbove: nat, highAbove: nat)
    requires mediumAbove <= highAbove
    requires n <= m
    ensures Classify(n, mediumAbove, highAbove).Rank() <= Classify(m, mediumAbove, highAbove).Rank()
  {
  }

  /** demand_level (ai.py line 122). */
  function DemandLevel(rfqCount: nat): (l: Level)
    ensures l == High <==> rfqCount > 30
    ensures l == Medium <==> 10 < rfqCount <= 30
    ensures l == Low <==> rfqCount <= 10
  {
    Classify(rfqCount, MediumDemandAbove, HighDemandAbove)
  }

  /** competition_level (ai.py line 125). */
  function CompetitionLevel(supplierCount: nat): (l: Level)
    ensures l == High <==> supplierCount > 10
    ensures l == Medium <==> 3 < supplierCount <= 10
    ensures l == Low <==> supplierCount <= 3
  {
    Classify(supplierCount, MediumCompetitionAbove, HighCompetitionAbove)
  }

  /** Each boundary belongs to the lower class. */
  lemma LevelBoundaries()
    ensures DemandLevel(10) == Low && DemandLevel(11) == Medium
    ensures DemandLevel(30) == Medium && DemandLevel(31) == High
    ensures CompetitionLevel(3) == Low && CompetitionLevel(4) == Medium
    ensures CompetitionLevel(10) == Medium && CompetitionLevel(11) == High
  {
  }

  /** For a positive mean, a spread ratio below one half is a spread below half the mean. */
  lemma SpreadRatioBelowHalf(spread: real, avg: real)
    ensures avg > 0.0 ==> (spread / avg < StableSpreadBelow <==> 2.0 * spread < avg)
  {
  }

  /** price_stability (ai.py lines 126-128): volatile when no row was priced,
      otherwise stable exactly when (max - min) / avg < 0.5. The division is
      only reached when rows exist, and needs a non-zero mean there. */
  function PriceStability(st: ProductStats): (s: Stability)
    requires st.total > 0 ==> st.summary.Some? && st.summary.value.avg != 0.0
    ensures st.total == 0 ==> s == Volatile
    ensures st.total > 0 && st.summary.value.avg > 0.0 ==>
      (s == Stable <==> 2.0 * (st.summary.value.max - st.summary.value.min) < st.summary.value.avg)
  {
    if st.total == 0 then Volatile
    else
      var sm := st.summary.value;
      SpreadRatioBelowHalf(sm.max - sm.min, sm.avg);
      if (sm.max - sm.min) / sm.avg < StableSpreadBelow then Stable else Volatile
  }

  // ---------------------------------------------------------------------
  // The report
  // ---------------------------------------------------------------------

  datatype MarketOverview = MarketOverview(
    totalProducts: nat, avgPrice: real, minPrice: real, maxPrice: real, activeSuppliers: nat)

  datatype DemandIndicators = DemandIndicators(rfqsLast30Days: nat, demandLevel: Level)

  datatype MarketHealth = MarketHealth(competitionLevel: Level, priceStability: Stability)

  datatype MarketReport = MarketReport(
    category: string,
    marketOverview: MarketOverview,
    demandIndicators: DemandIndicators,
    marketHealth: MarketHealth)

  /** The market analysis endpoint (ai.py lines 53-130), as of instant `now`. */
  function MarketAnalysis(products: seq<Product>, rfqs: seq<Rfq>, category: string, now: int): (r: MarketReport)
    ensures r.category == category
    ensures r.marketOverview.totalProducts
         == |set i: nat | i < |products| && IsPriced(products[i], category)|
    ensures r.marketOverview.totalProducts == 0 ==>
      r.marketOverview.avgPrice == 0.0 && r.marketOverview.minPrice == 0.0 && r.marketOverview.maxPrice == 0.0
    ensures r.marketOverview.totalProducts > 0 ==>
      0.0 < r.marketOverview.minPrice <= r.marketOverview.avgPrice <= r.marketOverview.maxPrice
    ensures r.marketOverview.totalProducts == |QualifyingPrices(products, category)|
    ensures r.marketOverview.totalProducts > 0 ==>
      r.marketOverview.avgPrice
        == SumOf(QualifyingPrices(products, category)) / (r.marketOverview.totalProducts as real)
    ensures forall k :: 0 <= k < |products| && IsPriced(products[k], category) ==>
      r.marketOverview.minPrice <= products[k].price <= r.marketOverview.maxPrice
    ensures r.marketOverview.totalProducts > 0 ==>
      (exists k :: 0 <= k < |products| && IsPriced(products[k], category) &&
        products[k].price == r.marketOverview.minPrice) &&
      (exists k :: 0 <= k < |products| && IsPriced(products[k], category) &&
        products[k].price == r.marketOverview.maxPrice)
    ensures r.marketOverview.activeSuppliers == |ActiveSupplierIds(products, category)|
    ensures r.marketOverview.activeSuppliers
         <= |set i: nat | i < |products| && IsActiveIn(products[i], category)|
    ensures r.marketOverview.totalProducts > 0 ==> r.marketOverview.activeSuppliers > 0
    ensures r.demandIndicators.rfqsLast30Days == RecentRfqCount(rfqs, category, now)
    ensures r.demandIndicators.demandLevel == DemandLevel(r.demandIndicators.rfqsLast30Days)
    ensures r.marketHealth.competitionLevel == CompetitionLevel(r.marketOverview.activeSuppliers)
    ensures r.marketOverview.totalProducts == 0 ==> r.marketHealth.priceStability == Volatile
    ensures r.marketOverview.totalProducts > 0 ==>
      (r.marketHealth.priceStability == Stable <==>
        2.0 * (r.marketOverview.maxPrice - r.marketOverview.minPrice) < r.marketOverview.avgPrice)
  {
    var stats := ComputeProductStats(products, category);
    var rfqCount := RecentRfqCount(rfqs, category, now);
    var supplierIds := ActiveSupplierIds(products, category);
    ActiveSuppliersAtMostActiveListings(products, category);
    PricedListingHasActiveSupplier(products, category);
    var summary := match stats.summary
      case Some(sm) => sm
      case None => PriceSummary(0.0, 0.0, 0.0);
    MarketReport(
      category,
      MarketOverview(stats.total, summary.avg, summary.min, summary.max, |supplierIds|),
      DemandIndicators(rfqCount, DemandLevel(rfqCount)),
      MarketHealth(CompetitionLevel(|supplierIds|), PriceStability(stats)))
  }
}
