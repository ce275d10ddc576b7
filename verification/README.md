# Market analysis and category ranking of a B2B marketplace, in Dafny

This project models the analytic part of the marketplace's AI router
(`app/routers/ai.py`). It covers two endpoints.

- **`GET /ai/market-analysis?category=…`** reports on one product category.
  It gives the number of active, positively priced listings and their
  average, minimum and maximum price. It counts the distinct suppliers with
  an active listing and the RFQs (requests for quote) posted in the
  category over the last 30 days. From these figures it derives a demand
  level, a competition level and a price-stability verdict.
- **`GET /ai/categories`** counts the active listings per category and
  orders the categories by descending count.

The three database queries behind the analysis become folds over
in-memory snapshots of the product and RFQ tables (`seq<Product>`,
`seq<Rfq>`). The clock becomes a parameter `now`, in seconds. The JSON
response becomes the `MarketReport` record. Prices are exact `real`s.

Files:

- `aggregates.dfy`: generic COUNT/WHERE/SUM/MIN/MAX folds. Each has an
  independent reference definition or bound: positions that satisfy the
  filter, and min ≤ mean ≤ max.
- `market.dfy`: the product, RFQ and report records; `Option`, the
  explicit absence SQL reports as NULL; the three filters;
  the statistics, RFQ-window and distinct-supplier queries; the
  classification thresholds as named constants; and `MarketAnalysis`.
- `categories.dfy`: the GROUP BY (`Tally`), the ORDER BY (`SortByCount`,
  an insertion sort) and `GetCategories`, whose result `CategoriesResponse`
  is the `{"categories": [...]}` body.
- `scenarios.dfy`: worked examples on small table snapshots.

## Model

| member | source | states |
|---|---|---|
| Aggregates.CountWhere | app/routers/ai.py:74 | a filtered COUNT never exceeds the number of rows |
| Aggregates.CountWhereIsIndexCount | app/routers/ai.py:91-96 | the counting fold equals the number of row positions that satisfy the filter (the reference meaning of COUNT ... WHERE) |
| Aggregates.CountWhereMonotone | app/routers/ai.py:79-83 | a filter that implies another never counts more rows than the other |
| Aggregates.Filter | app/routers/ai.py:78-84 | every row the WHERE keeps satisfies the filter, and the number kept is the filtered count |
| Aggregates.FilterKeepsTheQualifyingRows | app/routers/ai.py:78-84 | the WHERE keeps exactly the rows satisfying the filter: every kept row comes from the table, every qualifying row is kept, and the kept rows form a sub-multiset of the table (with the count above, each qualifying row is kept as often as it occurs) |
| Aggregates.FilterSnoc | app/routers/ai.py:78-84 | a qualifying row appended to the table is appended to the kept rows |
| Aggregates.FilterAll | app/routers/ai.py:78-84 | when every row satisfies the filter, the WHERE keeps the whole table in order |
| Aggregates.MinOf | app/routers/ai.py:76 | MIN of a non-empty column is one of its values and is no larger than any value |
| Aggregates.MaxOf | app/routers/ai.py:77 | MAX of a non-empty column is one of its values and is no smaller than any value |
| Aggregates.SumAtLeast | app/routers/ai.py:75 | a lower bound on every value bounds the SUM from below by that many copies of it |
| Aggregates.SumAtMost | app/routers/ai.py:75 | an upper bound on every value bounds the SUM from above by that many copies of it |
| Aggregates.MeanAtLeast | app/routers/ai.py:75 | any lower bound on the values is a lower bound on their AVG |
| Aggregates.MeanAtMost | app/routers/ai.py:75 | any upper bound on the values is an upper bound on their AVG |
| Aggregates.MeanBetweenMinAndMax | app/routers/ai.py:75-77 | AVG lies between MIN and MAX over the same rows |
| Market.QualifyingPricesAreThePricedRows | app/routers/ai.py:78-84 | the aggregated prices are exactly the prices of rows in the category that are active and priced above 0, so each one is positive |
| Market.ComputeProductStats | app/routers/ai.py:72-86 | the count is the number of active rows in the category with price > 0; avg/min/max are absent exactly when that count is 0, and then no row of the table qualifies; otherwise 0 < min ≤ avg ≤ max, min and max are prices of qualifying rows and bound all of them, and avg is their mean |
| Market.RecentRfqCount | app/routers/ai.py:89-98 | the demand count is the number of RFQs whose category matches exactly and whose creation time is at or after now minus 30 days |
| Market.RecentRfqWindowEdges | app/routers/ai.py:89-94 | an RFQ exactly 30 days old is counted and one a second older is not; an RFQ dated after now is still counted, because the window has no upper bound |
| Market.RecentRfqCountAntitone | app/routers/ai.py:89-98 | with the same RFQs, a later evaluation instant never counts more |
| Market.ActiveSupplierIds | app/routers/ai.py:101-109 | a supplier id is counted iff some active listing of the category carries it, with no price filter; there are no more ids than active listings, and none iff there are no active listings |
| Market.ActiveSuppliersAtMostActiveListings | app/routers/ai.py:101-109 | the distinct-supplier count is at most the number of active listings in the category |
| Market.PricedListingHasActiveSupplier | app/routers/ai.py:79-83 | if any listing enters the price statistics, at least one active supplier is counted |
| Market.Classify | app/routers/ai.py:122-125 | the three-band rule: high iff strictly above the upper threshold, medium iff strictly above the lower threshold and not above the upper one, low otherwise |
| Market.ClassifyMonotone | app/routers/ai.py:122-125 | a larger count never yields a lower level |
| Market.DemandLevel | app/routers/ai.py:122 | demand is high iff more than 30 RFQs, medium iff 11 to 30, low iff at most 10 |
| Market.CompetitionLevel | app/routers/ai.py:125 | competition is high iff more than 10 suppliers, medium iff 4 to 10, low iff at most 3 |
| Market.LevelBoundaries | app/routers/ai.py:122-125 | 10 RFQs give low, 11 and 30 give medium, 31 gives high; 3 suppliers give low, 4 and 10 give medium, 11 gives high |
| Market.SpreadRatioBelowHalf | app/routers/ai.py:127 | for a positive mean, (max − min) / avg < 0.5 iff 2·(max − min) < avg |
| Market.PriceStability | app/routers/ai.py:126-128 | volatile whenever no listing qualifies, and the division is not needed then; otherwise, for a positive mean, stable iff 2·(max − min) < avg |
| Market.MarketAnalysis | app/routers/ai.py:53-130 | the whole report: it echoes the category; the product count is the number of qualifying listings; with none, avg/min/max read 0 and stability is volatile; otherwise avg is the mean of the qualifying prices (their sum over the product count), 0 < min ≤ avg ≤ max bound every qualifying price, min and max are attained, and stability is stable iff 2·(max − min) < avg; the supplier count is the distinct-supplier count, bounded by the active listings and positive when any listing is priced; demand and competition levels are the classifications of the RFQ and supplier counts |
| Categories.ActiveCount | app/routers/ai.py:141-146 | a category's product_count is the number of active listings of that category |
| Categories.ActiveTotal | app/routers/ai.py:143-145 | the number of active listings over all categories |
| Categories.EntryNameListed | app/routers/ai.py:152-155 | every row's category name is among the listed names |
| Categories.DistinctNamesPairwise | app/routers/ai.py:145-146 | grouping gives no two rows the same category name |
| Categories.CountForEntry | app/routers/ai.py:152-155 | with distinct names, a lookup by a row's name returns that row's count |
| Categories.Bump | app/routers/ai.py:141-146 | counting one more listing of a category raises that category's count by one and leaves every other count alone; it adds the category if absent, raises the total by one and keeps names distinct |
| Categories.Tally | app/routers/ai.py:139-146 | the grouped counts: names are distinct; each category's count is its number of active listings; a category is present iff it has an active listing; the counts sum to the number of active listings |
| Categories.Insert | app/routers/ai.py:147-149 | inserting into a list ordered by descending count keeps it ordered. The result is the old list plus one entry, as a multiset, so the total grows by that entry's count and names stay distinct when the name is new |
| Categories.SortByCount | app/routers/ai.py:147-149 | the result is ordered by non-increasing count and is a permutation of its input, with the same total, the same names and names still distinct |
| Categories.GetCategories | app/routers/ai.py:133-157 | the response holds, under its single key `categories`, one row per category that has at least one active listing, and no other rows. Each row carries that category's active-listing count. The counts sum to the number of active listings, and rows are ordered by non-increasing count |
| Scenarios.ElectronicsScenario | app/routers/ai.py:53-130 | five active listings priced 100, 120, 110, 130 and 90 from two suppliers, with no RFQs, give five products, mean 110, min 90, max 130, two suppliers, zero RFQs, low demand, low competition and stable prices |
| Scenarios.EmptyCategoryScenario | app/routers/ai.py:111-130 | a category with no listings and no RFQs reports all figures as 0, low demand, low competition and volatile prices |
| Scenarios.CategoriesScenario | app/routers/ai.py:133-157 | two active bolts, one active nuts and one inactive gears listing rank as bolts (2) then nuts (1), without gears |

## Behaviour worth noting

- The supplier count has no price filter. A supplier whose only active
  listing has a price of 0 or less still counts as an active supplier,
  although that listing is not in the price statistics.
- With no qualifying listing, the report shows avg/min/max as 0.
  `ProductStats` keeps SQL's NULL as `Option`, and the coercion to 0
  happens only when the report is built.
- The RFQ window has no upper bound. An RFQ dated after `now` is counted
  (see `Market.RecentRfqWindowEdges`).

## Left out

- `ai_price_suggestion` (app/routers/ai.py:15-50): it only forwards to
  `get_ai_price_suggestion`. That function's module
  (`app/ai/price_suggestion.py`) is not part of this model, so its
  confidence, trend, bulk-discount and comparable-selection logic is not
  modelled.
- `app/main.py`: app construction, CORS, table creation, router
  registration and the health/debug endpoints. These are configuration and
  I/O wiring.
- Async database access, SQLAlchemy query construction, `Depends(get_db)`
  and FastAPI's `Query` validation. The queries become filters and folds
  over sequences.
- `round(float(...), 2)` on the reported prices (app/routers/ai.py:115-117).
  This is floating-point presentation; the model reports the exact reals.
- The database's AVG precision on numeric columns and the Decimal/float
  comparison in the stability test are left out; both are modelled as
  exact real arithmetic.
- `datetime.utcnow()`: the evaluation instant is the parameter `now`, in
  whole seconds. 30 days is the constant `DemandWindowSeconds`. Time zones
  are left out.
- NULL column values: the product columns category, price, is_active and
  supplier_id, and the RFQ columns category and created_at, are modelled
  as always present. SQL's three-valued comparisons therefore do not arise.
  The query leaves out a product or RFQ row whose filtered column is NULL,
  and `Product`/`Rfq` cannot represent such a row.
- Tie order among categories with equal counts: SQL leaves it open. The
  model's sort picks one order, and no contract depends on it.
- Response strings: levels and stability are enumerations; their `Label`
  members give the strings "low", "medium", "high", "stable" and
  "volatile".
- Market.PriceStability: the equivalence with 2·(max − min) < avg is
  stated only for a positive mean. For a negative mean the comparison is
  mirrored. A negative mean cannot come out of the statistics query, and
  `Market.MarketAnalysis` states the unconditional form.
- Collation: category comparison and grouping (app/routers/ai.py:80, 93,
  104, 141-146) are modelled as exact equality of character sequences, as
  under a binary collation. A database collation that ignores case or
  accents would merge categories the model keeps apart; that is not
  modelled.
