/**
 * The category listing of the AI router (`GET /ai/categories`): active
 * products grouped by category, counted, and ordered by descending count.
 *
 * The GROUP BY becomes `Tally`, a fold that keeps one entry per category,
 * and the ORDER BY becomes `SortByCount`, an insertion sort. SQL leaves
 * the order of equal counts open; this sort places a newly inserted entry
 * before entries with the same count, and the contracts say nothing about
 * tie order.
 */
module Categories {
  import opened Aggregates
  import opened Market

  /** One row of the response: a category and its number of active products. */
  datatype CategoryCount = CategoryCount(name: string, productCount: nat)

  /** The response body: the rows under the single key `categories`. */
  datatype CategoriesResponse = CategoriesResponse(categories: seq<CategoryCount>)

  predicate IsActive(p: Product)
  {
    p.isActive
  }

  /** Number of active products of category `name` (the per-group COUNT). */
  function ActiveCount(products: seq<Product>, name: string): (n: nat)
    ensures n == |set k: nat | k < |products| && products[k].isActive && products[k].category == name|
  {
    CountWhereIsIndexCount(products, ActiveIn(name));
    assert IndicesWhere(products, ActiveIn(name))
        == set k: nat | k < |products| && products[k].isActive && products[k].category == name;
    CountWhere(products, ActiveIn(name))
  }

  /** Number of active products over all categories. */
  function ActiveTotal(products: seq<Product>): (n: nat)
    ensures n == |set k: nat | k < |products| && products[k].isActive|
  {
    CountWhereIsIndexCount(products, IsActive);
    assert IndicesWhere(products, IsActive) == set k: nat | k < |products| && products[k].isActive;
    CountWhere(products, IsActive)
  }

  // ---------------------------------------------------------------------
  // Views of a list of entries
  // ---------------------------------------------------------------------

  /** The categories that have an entry. */
  function Names(gs: seq<CategoryCount>): set<string>
  {
    if |gs| == 0 then {} else {gs[0].name} + Names(gs[1..])
  }

  /** No category has two entries. */
  predicate DistinctNames(gs: seq<CategoryCount>)
  {
    |gs| > 0 ==> gs[0].name !in Names(gs[1..]) && DistinctNames(gs[1..])
  }

  predicate ByCountDescending(gs: seq<CategoryCount>)
  {
    forall i, j :: 0 <= i < j < |gs| ==> gs[i].productCount >= gs[j].productCount
  }

  /** The count of the first entry named `name`, or 0 when there is none. */
  function CountFor(gs: seq<CategoryCount>, name: string): nat
  {
    if |gs| == 0 then 0
    else if gs[0].name == name then gs[0].productCount
    else CountFor(gs[1..], name)
  }

  /** Sum of the counts of all entries. */
  function TotalCount(gs: seq<CategoryCount>): nat
  {
    if |gs| == 0 then 0 else gs[0].productCount + TotalCount(gs[1..])
  }

  /** Every entry's category is among the names. */
  lemma {:induction false} EntryNameListed(gs: seq<CategoryCount>, e: CategoryCount)
    requires e in gs
    ensures e.name in Names(gs)
  {
    if gs[0] != e {
      assert e in gs[1..];
      EntryNameListed(gs[1..], e);
    }
  }

  /** The recursive definition of distinct names, read pairwise. */
  lemma {:induction false} DistinctNamesPairwise(gs: seq<CategoryCount>)
    requires DistinctNames(gs)
    ensures forall i, j :: 0 <= i < j < |gs| ==> gs[i].name != gs[j].name
  {
    if |gs| > 0 {
      DistinctNamesPairwise(gs[1..]);
      forall j | 0 < j < |gs|
        ensures gs[0].name != gs[j].name
      {
        assert gs[j] in gs[1..];
        EntryNameListed(gs[1..], gs[j]);
      }
    }
  }

  /** With distinct names, every entry is the one `CountFor` finds. */
  lemma {:induction false} CountForEntry(gs: seq<CategoryCount>, e: CategoryCount)
    requires DistinctNames(gs)
    requires e in gs
    ensures CountFor(gs, e.name) == e.productCount
  {
    if gs[0] != e {
      assert e in gs[1..];
      EntryNameListed(gs[1..], e);
      CountForEntry(gs[1..], e);
    }
  }

  // ---------------------------------------------------------------------
  // GROUP BY category, COUNT
  // ---------------------------------------------------------------------

  /** Counts one more product of category `name`: increments its entry, or
      appends a new entry with count 1 when the category is not yet present. */
  function Bump(gs: seq<CategoryCount>, name: string): (r: seq<CategoryCount>)
    ensures forall n :: CountFor(r, n) == CountFor(gs, n) + (if n == name then 1 else 0)
    ensures forall n :: n in Names(r) <==> n in Names(gs) || n == name
    ensures TotalCount(r) == TotalCount(gs) + 1
    ensures DistinctNames(gs) ==> DistinctNames(r)
  {
    if |gs| == 0 then [CategoryCount(name, 1)]
    else if gs[0].name == name then [gs[0].(productCount := gs[0].productCount + 1)] + gs[1..]
    else
      var r := [gs[0]] + Bump(gs[1..], name);
      assert r[1..] == Bump(gs[1..], name);
      r
  }

  /** The grouped counts of the active products, one entry per category, in
      order of first appearance. */
  function Tally(products: seq<Product>): (r: seq<CategoryCount>)
    ensures DistinctNames(r)
    ensures forall n :: CountFor(r, n) == CountWhere(products, ActiveIn(n))
    ensures forall n :: n in Names(r) <==> CountWhere(products, ActiveIn(n)) > 0
    ensures TotalCount(r) == CountWhere(products, IsActive)
    decreases |products|
  {
    if |products| == 0 then []
    else
      var rest := Tally(products[..|products|-1]);
      var p := products[|products|-1];
      if p.isActive then Bump(rest, p.category) else rest
  }

  // ---------------------------------------------------------------------
  // ORDER BY count DESC
  // ---------------------------------------------------------------------

  /** What prepending one entry does to the views of a list. */
  lemma Prepend(x: CategoryCount, t: seq<CategoryCount>)
    ensures ([x] + t)[1..] == t
    ensures Names([x] + t) == {x.name} + Names(t)
    ensures TotalCount([x] + t) == x.productCount + TotalCount(t)
    ensures DistinctNames([x] + t) <==> x.name !in Names(t) && DistinctNames(t)
    ensures ByCountDescending(t) && (|t| == 0 || x.productCount >= t[0].productCount)
        ==> ByCountDescending([x] + t)
  {
    var r := [x] + t;
    assert r[1..] == t;
    if ByCountDescending(t) && (|t| == 0 || x.productCount >= t[0].productCount) {
      forall i, j | 0 <= i < j < |r|
        ensures r[i].productCount >= r[j].productCount
      {
        assert r[j] == t[j - 1];
        if i > 0 {
          assert r[i] == t[i - 1];
        } else {
          assert t[0].productCount >= t[j - 1].productCount;
        }
      }
    }
  }

  /** Inserts `e` into a list ordered by descending count, before the first
      entry whose count does not exceed its own. */
  function Insert(e: CategoryCount, gs: seq<CategoryCount>): (r: seq<CategoryCount>)
    requires ByCountDescending(gs)
    ensures ByCountDescending(r)
    ensures multiset(r) == multiset(gs) + multiset{e}
    ensures |r| > 0 && (r[0] == e || (|gs| > 0 && r[0] == gs[0]))
    ensures TotalCount(r) == TotalCount(gs) + e.productCount
    ensures forall n :: n in Names(r) <==> n in Names(gs) || n == e.name
    ensures DistinctNames(gs) && e.name !in Names(gs) ==> DistinctNames(r)
  {
    if |gs| == 0 || e.productCount >= gs[0].productCount then
      Prepend(e, gs);
      [e] + gs
    else
      var t := Insert(e, gs[1..]);
      assert gs == [gs[0]] + gs[1..];
      assert gs[0].productCount >= t[0].productCount;
      Prepend(gs[0], t);
      [gs[0]] + t
  }

  /** Insertion sort by descending count: a permutation of `gs` that is ordered. */
  function SortByCount(gs: seq<CategoryCount>): (r: seq<CategoryCount>)
    ensures ByCountDescending(r)
    ensures multiset(r) == multiset(gs)
    ensures TotalCount(r) == TotalCount(gs)
    ensures forall n :: n in Names(r) <==> n in Names(gs)
    ensures DistinctNames(gs) ==> DistinctNames(r)
  {
    if |gs| == 0 then []
    else
      assert gs == [gs[0]] + gs[1..];
      Insert(gs[0], SortByCount(gs[1..]))
  }

  // ---------------------------------------------------------------------
  // The endpoint
  // ---------------------------------------------------------------------

  /** The categories endpoint (ai.py lines 133-157). */
  function GetCategories(products: seq<Product>): (r: CategoriesResponse)
    ensures forall i, j :: 0 <= i < j < |r.categories| ==> r.categories[i].name != r.categories[j].name
    ensures forall n :: n in Names(r.categories) <==> ActiveCount(products, n) > 0
    ensures forall i :: 0 <= i < |r.categories| ==>
      r.categories[i].productCount == ActiveCount(products, r.categories[i].name)
    ensures TotalCount(r.categories) == ActiveTotal(products)
    ensures ByCountDescending(r.categories)
  {
    var groups := Tally(products);
    var rows := SortByCount(groups);
    forall i | 0 <= i < |rows|
      ensures rows[i].productCount == ActiveCount(products, rows[i].name)
    {
      assert rows[i] in multiset(groups);
      CountForEntry(groups, rows[i]);
    }
    DistinctNamesPairwise(rows);
    CategoriesResponse(rows)
  }
}
