/** Worked examples of the two endpoints on small table snapshots. */
module Scenarios {
  import opened Aggregates
  import opened Market
  import opened Categories

  /** The electronics table of the examples: five active listings priced
      100, 120, 110, 130 and 90. */
  predicate ElectronicsTable(products: seq<Product>)
  {
    && |products| == 5
    && (forall i :: 0 <= i < 5 ==> products[i].category == "electronics" && products[i].isActive)
    && products[0].price == 100.0 && products[1].price == 120.0 && products[2].price == 110.0
    && products[3].price == 130.0 && products[4].price == 90.0
  }

  /** The first two listings belong to supplier 1, the other three to supplier 2. */
  predicate ElectronicsSuppliersOneAndTwo(products: seq<Product>)
  {
    && |products| == 5
    && products[0].supplierId == 1 && products[1].supplierId == 1
    && products[2].supplierId == 2 && products[3].supplierId == 2 && products[4].supplierId == 2
  }

  /** Five active electronics listings priced 90..130 from two suppliers and
      no RFQs: prices are stable (a spread of 40 is under half of any mean
      between 90 and 130), and demand and competition are both low. */
  lemma ElectronicsScenario(products: seq<Product>, now: int)
    requires ElectronicsTable(products) && ElectronicsSuppliersOneAndTwo(products)
    ensures var r := MarketAnalysis(products, [], "electronics", now);
      && r.marketOverview.totalProducts == 5
      && r.marketOverview.avgPrice == 110.0
      && r.marketOverview.minPrice == 90.0
      && r.marketOverview.maxPrice == 130.0
      && r.marketOverview.activeSuppliers == 2
      && r.demandIndicators.rfqsLast30Days == 0
      && r.demandIndicators.demandLevel == Low
      && r.marketHealth.competitionLevel == Low
      && r.marketHealth.priceStability == Stable
  {
    ElectronicsPriceFigures(products, now);
    ElectronicsSuppliers(products);
  }

  /** The price figures of the electronics example: five listings, mean 110,
      range 90..130. */
  lemma ElectronicsPriceFigures(products: seq<Product>, now: int)
    requires ElectronicsTable(products)
    ensures var o := MarketAnalysis(products, [], "electronics", now).marketOverview;
      o.totalProducts == 5 && o.avgPrice == 110.0 && o.minPrice == 90.0 && o.maxPrice == 130.0
  {
    ElectronicsMean(products, now);
    ElectronicsRange(products, now);
  }

  /** Five qualifying listings summing to 550 have mean 110. */
  lemma ElectronicsMean(products: seq<Product>, now: int)
    requires ElectronicsTable(products)
    ensures var o := MarketAnalysis(products, [], "electronics", now).marketOverview;
      o.totalProducts == 5 && o.avgPrice == 110.0
  {
    ElectronicsPrices(products);
    var xs := QualifyingPrices(products, "electronics");
    var o := MarketAnalysis(products, [], "electronics", now).marketOverview;
    assert o.totalProducts == |xs| == 5;
    assert o.avgPrice == SumOf(xs) / 5.0 == 550.0 / 5.0;
  }

  /** The cheapest listing costs 90 and the dearest 130. */
  lemma ElectronicsRange(products: seq<Product>, now: int)
    requires ElectronicsTable(products)
    ensures var o := MarketAnalysis(products, [], "electronics", now).marketOverview;
      o.minPrice == 90.0 && o.maxPrice == 130.0
  {
    var o := MarketAnalysis(products, [], "electronics", now).marketOverview;
    assert 4 in set i: nat | i < |products| && IsPriced(products[i], "electronics");
    assert o.totalProducts > 0;
    assert IsPriced(products[4], "electronics") && IsPriced(products[3], "electronics");
    var lo :| 0 <= lo < |products| && IsPriced(products[lo], "electronics") && products[lo].price == o.minPrice;
    assert lo in {0, 1, 2, 3, 4};
    assert o.minPrice <= products[4].price;
    var hi :| 0 <= hi < |products| && IsPriced(products[hi], "electronics") && products[hi].price == o.maxPrice;
    assert hi in {0, 1, 2, 3, 4};
    assert products[3].price <= o.maxPrice;
  }

  /** The example's active listings come from suppliers 1 and 2 only. */
  lemma ElectronicsSuppliers(products: seq<Product>)
    requires ElectronicsTable(products) && ElectronicsSuppliersOneAndTwo(products)
    ensures |ActiveSupplierIds(products, "electronics")| == 2
  {
    var ids := ActiveSupplierIds(products, "electronics");
    assert IsActiveIn(products[0], "electronics") && IsActiveIn(products[2], "electronics");
    assert 1 in ids && 2 in ids;
    forall s | s in ids
      ensures s == 1 || s == 2
    {
      var i :| 0 <= i < |products| && IsActiveIn(products[i], "electronics") && products[i].supplierId == s;
      assert i in {0, 1, 2, 3, 4};
    }
    ExactlyTwo(ids);
  }

  /** Every electronics listing of the example qualifies, so the aggregated
      column is the five prices, summing to 550. */
  lemma ElectronicsPrices(products: seq<Product>)
    requires ElectronicsTable(products)
    ensures |QualifyingPrices(products, "electronics")| == 5
    ensures SumOf(QualifyingPrices(products, "electronics")) == 550.0
  {
    forall i | 0 <= i < |products|
      ensures PricedIn("electronics")(products[i])
    {
    }
    FilterAll(products, PricedIn("electronics"));
    var xs := QualifyingPrices(products, "electronics");
    assert xs == Prices(products);
    SumFive(xs);
  }

  /** The sum of five prices, unfolded. */
  lemma SumFive(xs: seq<real>)
    requires |xs| == 5
    ensures SumOf(xs) == xs[0] + xs[1] + xs[2] + xs[3] + xs[4]
  {
    var a, b, c, d := xs[..4], xs[..3], xs[..2], xs[..1];
    assert a[..3] == b && b[..2] == c && c[..1] == d && d[..0] == [];
    assert SumOf(d) == xs[0];
    assert SumOf(c) == xs[0] + xs[1];
    assert SumOf(b) == xs[0] + xs[1] + xs[2];
    assert SumOf(a) == xs[0] + xs[1] + xs[2] + xs[3];
  }

  /** A set holding 1 and 2 and nothing else has two members. */
  lemma ExactlyTwo(ids: set<int>)
    requires 1 in ids && 2 in ids
    requires forall s :: s in ids ==> s == 1 || s == 2
    ensures |ids| == 2
  {
    assert forall s :: s in ids <==> s in {1, 2};
    assert ids == {1, 2};
  }

  /** A category with no listings and no RFQs: every figure is 0 and the
      prices count as volatile. */
  lemma EmptyCategoryScenario(products: seq<Product>, now: int)
    requires forall i :: 0 <= i < |products| ==> products[i].category != "widgets"
    ensures var r := MarketAnalysis(products, [], "widgets", now);
      && r.marketOverview == MarketOverview(0, 0.0, 0.0, 0.0, 0)
      && r.demandIndicators == DemandIndicators(0, Low)
      && r.marketHealth == MarketHealth(Low, Volatile)
  {
  }

  /** Two active "bolts", one active "nuts" and an inactive "gears" listing
      rank as bolts (2) before nuts (1); gears does not appear. */
  lemma CategoriesScenario(products: seq<Product>)
    requires products == [
        Product("bolts", 1.0, true, 1), Product("nuts", 2.0, true, 1),
        Product("bolts", 3.0, true, 2), Product("gears", 4.0, false, 2)]
    ensures GetCategories(products).categories == [CategoryCount("bolts", 2), CategoryCount("nuts", 1)]
  {
    assert products[..1][..0] == [];
    assert Tally(products[..1]) == [CategoryCount("bolts", 1)];
    assert products[..2][..1] == products[..1];
    assert Tally(products[..2]) == [CategoryCount("bolts", 1), CategoryCount("nuts", 1)];
    assert products[..3][..2] == products[..2];
    assert Tally(products[..3]) == [CategoryCount("bolts", 2), CategoryCount("nuts", 1)];
    assert products[..3] == products[..|products|-1];
    assert Tally(products) == [CategoryCount("bolts", 2), CategoryCount("nuts", 1)];
    assert SortByCount([CategoryCount("nuts", 1)]) == [CategoryCount("nuts", 1)];
  }
}
