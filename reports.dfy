/** The three read-only report endpoints of the sales controller, each a
    filter / group-by-sum / sort / limit over the sequence of stored sales. */
module Reports {
  import opened Common
  import opened ProductModel
  import opened SaleModel
  import opened Grouping

  // =====================================================================
  // Revenue per month of one year

  /** The report's year: the requested one when given and non-zero, else the
      current year (supplied by the caller, as the clock is). */
  function ReportYear(requested: Option<int>, currentYear: int): int {
    if requested.Some? && requested.value != 0 then requested.value else currentYear
  }

  /** Sum of sale totals per month, over the sales dated in `year`; a month
      without sales has no entry. */
  function TotalsByMonth(sales: seq<Sale>, year: int): map<Month, int> {
    if sales == [] then map[]
    else
      var g := TotalsByMonth(sales[1..], year);
      var m := sales[0].fecha.month;
      if sales[0].fecha.year != year then g
      else g[m := (if m in g then g[m] else 0) + sales[0].total]
  }

  /** Reference: total revenue of the sales dated in year `year`, month `m`. */
  function MonthRevenue(sales: seq<Sale>, year: int, m: Month): int {
    if sales == [] then 0
    else (if sales[0].fecha.year == year && sales[0].fecha.month == m then sales[0].total else 0)
         + MonthRevenue(sales[1..], year, m)
  }

  datatype MonthlyReport = MonthlyReport(year: int, meses: seq<int>, totales: seq<int>)

  /** Twelve totals, January to December; a month without sales reports 0. */
  function VentasPorMes(sales: seq<Sale>, requested: Option<int>, currentYear: int): MonthlyReport {
    var year := ReportYear(requested, currentYear);
    var agg := TotalsByMonth(sales, year);
    MonthlyReport(
      year,
      seq(12, i => i + 1),
      seq(12, i requires 0 <= i < 12 => var m: Month := i + 1; if m in agg then agg[m] else 0))
  }

  lemma {:induction false} TotalsByMonthCorrect(sales: seq<Sale>, year: int)
    ensures forall m: Month :: m in TotalsByMonth(sales, year) ==> TotalsByMonth(sales, year)[m] == MonthRevenue(sales, year, m)
    ensures forall m: Month :: m !in TotalsByMonth(sales, year) ==> MonthRevenue(sales, year, m) == 0
  {
    if sales != [] {
      TotalsByMonthCorrect(sales[1..], year);
    }
  }

  /** The monthly report is for the requested (or current) year, lists months
      1 to 12, and reports for each month the revenue of the sales dated in it. */
  lemma VentasPorMesCorrect(sales: seq<Sale>, requested: Option<int>, currentYear: int)
    ensures var r := VentasPorMes(sales, requested, currentYear);
      && r.year == (if requested.Some? && requested.value != 0 then requested.value else currentYear)
      && |r.meses| == 12 && |r.totales| == 12
      && forall i :: 0 <= i < 12 ==> r.meses[i] == i + 1 && r.totales[i] == MonthRevenue(sales, r.year, i + 1)
  {
    TotalsByMonthCorrect(sales, ReportYear(requested, currentYear));
  }

  /** Reference revenue of a month in which no sale of the year is dated. */
  lemma {:induction false} QuietMonthRevenue(sales: seq<Sale>, year: int, m: Month)
    requires forall k :: 0 <= k < |sales| ==> sales[k].fecha.year != year || sales[k].fecha.month != m
    ensures MonthRevenue(sales, year, m) == 0
  {
    if sales != [] {
      QuietMonthRevenue(sales[1..], year, m);
    }
  }

  /** A month of the report's year in which no sale is dated reports 0. */
  lemma QuietMonthIsZero(sales: seq<Sale>, requested: Option<int>, currentYear: int, m: Month)
    requires forall k :: 0 <= k < |sales| ==>
      sales[k].fecha.year != ReportYear(requested, currentYear) || sales[k].fecha.month != m
    ensures VentasPorMes(sales, requested, currentYear).totales[m - 1] == 0
  {
    VentasPorMesCorrect(sales, requested, currentYear);
    QuietMonthRevenue(sales, ReportYear(requested, currentYear), m);
  }

  // =====================================================================
  // Revenue per category

  /** The category name a product's lines are grouped under, or None when the
      product has no category or its category no longer exists. */
  function CategoryOf(p: Product, categories: map<CategoryId, string>): Option<string> {
    if p.categoria.Some? && p.categoria.value in categories then Some(categories[p.categoria.value]) else None
  }

  /** The name shown for a group: "Sin categoría" when it has none. */
  function Label(k: Option<string>): string {
    if k.None? || k.value == "" then "Sin categoría" else k.value
  }

  /** The lines of one sale whose product still exists, keyed by category. */
  function ItemEntries(items: seq<LineItem>, products: Catalog, categories: map<CategoryId, string>)
    : seq<Entry<Option<string>>>
  {
    if items == [] then []
    else
      (if Known(products, items[0].producto)
       then [Entry(CategoryOf(products[items[0].producto.value], categories), items[0].cantidad, items[0].subtotal)]
       else [])
      + ItemEntries(items[1..], products, categories)
  }

  /** The lines of the sales dated within the inclusive range whose product
      still exists, keyed by category. */
  function CategoryEntries(sales: seq<Sale>, products: Catalog, categories: map<CategoryId, string>,
                           start: Option<Date>, end: Option<Date>): seq<Entry<Option<string>>>
  {
    if sales == [] then []
    else
      (if InRange(sales[0].fecha, start, end) then ItemEntries(sales[0].items, products, categories) else [])
      + CategoryEntries(sales[1..], products, categories, start, end)
  }

  /** One row per category with its summed subtotals, largest first. */
  function CategoryGroups(sales: seq<Sale>, products: Catalog, categories: map<CategoryId, string>,
                          start: Option<Date>, end: Option<Date>): seq<Row<Option<string>>>
  {
    SortDesc(Tally(CategoryEntries(sales, products, categories, start, end)), ByVentas)
  }

  datatype CategoryReport = CategoryReport(categorias: seq<string>, totales: seq<int>)

  function VentasPorCategoria(sales: seq<Sale>, products: Catalog, categories: map<CategoryId, string>,
                              start: Option<Date>, end: Option<Date>): CategoryReport
  {
    var g := CategoryGroups(sales, products, categories, start, end);
    CategoryReport(
      seq(|g|, i requires 0 <= i < |g| => Label(g[i].key)),
      seq(|g|, i requires 0 <= i < |g| => g[i].ventas))
  }

  /** Reference: summed subtotals of one sale's lines whose product exists
      and falls under category `key`. */
  function ItemRevenue(items: seq<LineItem>, products: Catalog, categories: map<CategoryId, string>,
                       key: Option<string>): int
  {
    if items == [] then 0
    else
      (if Known(products, items[0].producto) && CategoryOf(products[items[0].producto.value], categories) == key
       then items[0].subtotal else 0)
      + ItemRevenue(items[1..], products, categories, key)
  }

  /** Reference: revenue of category `key` over the sales dated within the
      inclusive range. */
  function CategoryRevenue(sales: seq<Sale>, products: Catalog, categories: map<CategoryId, string>,
                           start: Option<Date>, end: Option<Date>, key: Option<string>): int
  {
    if sales == [] then 0
    else
      (if InRange(sales[0].fecha, start, end) then ItemRevenue(sales[0].items, products, categories, key) else 0)
      + CategoryRevenue(sales[1..], products, categories, start, end, key)
  }

  lemma {:induction false} ItemEntriesRevenue(items: seq<LineItem>, products: Catalog,
                                              categories: map<CategoryId, string>, key: Option<string>)
    ensures AmountOf(ItemEntries(items, products, categories), key) == ItemRevenue(items, products, categories, key)
  {
    if items != [] {
      var head := if Known(products, items[0].producto)
        then [Entry(CategoryOf(products[items[0].producto.value], categories), items[0].cantidad, items[0].subtotal)]
        else [];
      ItemEntriesRevenue(items[1..], products, categories, key);
      SumsOfConcat(head, ItemEntries(items[1..], products, categories), key);
    }
  }

  lemma {:induction false} CategoryEntriesRevenue(sales: seq<Sale>, products: Catalog,
                                                  categories: map<CategoryId, string>,
                                                  start: Option<Date>, end: Option<Date>, key: Option<string>)
    ensures AmountOf(CategoryEntries(sales, products, categories, start, end), key)
         == CategoryRevenue(sales, products, categories, start, end, key)
  {
    if sales != [] {
      var head := if InRange(sales[0].fecha, start, end) then ItemEntries(sales[0].items, products, categories) else [];
      if InRange(sales[0].fecha, start, end) {
        ItemEntriesRevenue(sales[0].items, products, categories, key);
      }
      CategoryEntriesRevenue(sales[1..], products, categories, start, end, key);
      SumsOfConcat(head, CategoryEntries(sales[1..], products, categories, start, end), key);
    }
  }

  /** A line counts toward category `key`: its product exists and is
      filed under that category. */
  predicate LineInCategory(l: LineItem, products: Catalog, categories: map<CategoryId, string>,
                           key: Option<string>)
  {
    Known(products, l.producto) && CategoryOf(products[l.producto.value], categories) == key
  }

  /** Some sale dated within the inclusive range has a line that counts
      toward category `key`. */
  predicate SoldInCategory(sales: seq<Sale>, products: Catalog, categories: map<CategoryId, string>,
                           start: Option<Date>, end: Option<Date>, key: Option<string>)
  {
    exists i, j :: 0 <= i < |sales| && 0 <= j < |sales[i].items|
      && InRange(sales[i].fecha, start, end) && LineInCategory(sales[i].items[j], products, categories, key)
  }

  lemma {:induction false} ItemEntriesKeys(items: seq<LineItem>, products: Catalog,
                                           categories: map<CategoryId, string>, key: Option<string>)
    ensures key in EntryKeys(ItemEntries(items, products, categories))
        <==> exists j :: 0 <= j < |items| && LineInCategory(items[j], products, categories, key)
  {
    if items != [] {
      var head := if Known(products, items[0].producto)
        then [Entry(CategoryOf(products[items[0].producto.value], categories), items[0].cantidad, items[0].subtotal)]
        else [];
      ItemEntriesKeys(items[1..], products, categories, key);
      EntryKeysConcat(head, ItemEntries(items[1..], products, categories));
      assert key in EntryKeys(head) <==> LineInCategory(items[0], products, categories, key) by {
        if Known(products, items[0].producto) {
          assert head[0].key == CategoryOf(products[items[0].producto.value], categories);
          assert EntryKeys(head) == {head[0].key};
        }
      }
      if exists j :: 0 <= j < |items| && LineInCategory(items[j], products, categories, key) {
        var j :| 0 <= j < |items| && LineInCategory(items[j], products, categories, key);
        if j > 0 {
          assert items[1..][j - 1] == items[j];
        }
      }
      if exists j :: 0 <= j < |items[1..]| && LineInCategory(items[1..][j], products, categories, key) {
        var j :| 0 <= j < |items[1..]| && LineInCategory(items[1..][j], products, categories, key);
        assert items[j + 1] == items[1..][j];
      }
    }
  }

  lemma {:induction false} CategoryEntriesKeys(sales: seq<Sale>, products: Catalog,
                                               categories: map<CategoryId, string>,
                                               start: Option<Date>, end: Option<Date>, key: Option<string>)
    ensures key in EntryKeys(CategoryEntries(sales, products, categories, start, end))
        <==> SoldInCategory(sales, products, categories, start, end, key)
  {
    if sales != [] {
      var head := if InRange(sales[0].fecha, start, end) then ItemEntries(sales[0].items, products, categories) else [];
      ItemEntriesKeys(sales[0].items, products, categories, key);
      CategoryEntriesKeys(sales[1..], products, categories, start, end, key);
      EntryKeysConcat(head, CategoryEntries(sales[1..], products, categories, start, end));
      if SoldInCategory(sales, products, categories, start, end, key) {
        var i, j :| 0 <= i < |sales| && 0 <= j < |sales[i].items|
          && InRange(sales[i].fecha, start, end) && LineInCategory(sales[i].items[j], products, categories, key);
        if i > 0 {
          assert sales[1..][i - 1] == sales[i];
          assert SoldInCategory(sales[1..], products, categories, start, end, key);
        }
      }
      if SoldInCategory(sales[1..], products, categories, start, end, key) {
        var i, j :| 0 <= i < |sales[1..]| && 0 <= j < |sales[1..][i].items|
          && InRange(sales[1..][i].fecha, start, end) && LineInCategory(sales[1..][i].items[j], products, categories, key);
        assert sales[i + 1] == sales[1..][i];
      }
      if InRange(sales[0].fecha, start, end)
         && exists j :: 0 <= j < |sales[0].items| && LineInCategory(sales[0].items[j], products, categories, key)
      {
        var j :| 0 <= j < |sales[0].items| && LineInCategory(sales[0].items[j], products, categories, key);
        assert SoldInCategory(sales, products, categories, start, end, key);
      }
    }
  }

  /** The category report has one row per category that has a kept line,
      each labelled by its name (or "Sin categoría") and totalling exactly the
      revenue of that category within the date range, ordered by total,
      largest first. */
  lemma VentasPorCategoriaCorrect(sales: seq<Sale>, products: Catalog, categories: map<CategoryId, string>,
                                  start: Option<Date>, end: Option<Date>)
    ensures var r := VentasPorCategoria(sales, products, categories, start, end);
      var g := CategoryGroups(sales, products, categories, start, end);
      && |r.categorias| == |g| && |r.totales| == |g|
      && DistinctKeys(g)
      && (forall key :: key in RowKeys(g) <==> SoldInCategory(sales, products, categories, start, end, key))
      && (forall i :: 0 <= i < |g| ==>
            r.categorias[i] == Label(g[i].key)
            && r.totales[i] == CategoryRevenue(sales, products, categories, start, end, g[i].key))
      && forall i, j :: 0 <= i < j < |g| ==> r.totales[i] >= r.totales[j]
  {
    var es := CategoryEntries(sales, products, categories, start, end);
    var g := CategoryGroups(sales, products, categories, start, end);
    TallyCorrect(es);
    SortDescCorrect(Tally(es), ByVentas);
    PermutedTallyDistinct(es, g);
    MultisetSameKeys(Tally(es), g);
    forall key ensures key in RowKeys(g) <==> SoldInCategory(sales, products, categories, start, end, key) {
      CategoryEntriesKeys(sales, products, categories, start, end, key);
    }
    forall i | 0 <= i < |g|
      ensures g[i].ventas == CategoryRevenue(sales, products, categories, start, end, g[i].key)
    {
      assert g[i] in multiset(Tally(es));
      CategoryEntriesRevenue(sales, products, categories, start, end, g[i].key);
    }
  }

  // =====================================================================
  // Best-selling products

  datatype TopRow = TopRow(productoId: ProductId, nombre: string, cantidad: int, ventas: int)

  /** The requested number of rows; absent or 0 (an unparsable parameter
      parses to nothing) means 10. */
  function Limit(requested: Option<int>): int {
    if requested.None? || requested.value == 0 then 10 else requested.value
  }

  /** Every line of every sale, keyed by its product reference. */
  function ProductEntries(sales: seq<Sale>): seq<Entry<Option<ProductId>>> {
    if sales == [] then []
    else LineEntries(sales[0].items) + ProductEntries(sales[1..])
  }

  function LineEntries(items: seq<LineItem>): seq<Entry<Option<ProductId>>> {
    if items == [] then []
    else [Entry(items[0].producto, items[0].cantidad, items[0].subtotal)] + LineEntries(items[1..])
  }

  /** Joins ranked groups with the catalog: groups whose product no longer
      exists (or that have no product) are dropped, the others get the
      product's name. */
  function Resolve(rows: seq<Row<Option<ProductId>>>, products: Catalog): seq<TopRow> {
    if rows == [] then []
    else
      (if Known(products, rows[0].key)
       then [TopRow(rows[0].key.value, products[rows[0].key.value].nombre, rows[0].cantidad, rows[0].ventas)]
       else [])
      + Resolve(rows[1..], products)
  }

  /** Groups all lines by product, orders the groups by quantity sold,
      largest first, keeps the first `Limit` of them and then drops those
      whose product no longer exists. A negative limit is rejected by the
      store (None). */
  function TopProductos(sales: seq<Sale>, products: Catalog, requested: Option<int>): Option<seq<TopRow>> {
    var limit := Limit(requested);
    if limit < 0 then None
    else
      var ranked := SortDesc(Tally(ProductEntries(sales)), ByCantidad);
      Some(Resolve(ranked[..if limit < |ranked| then limit else |ranked|], products))
  }

  /** Reference: units of product `id` sold across all sales. */
  function UnitsSold(sales: seq<Sale>, id: ProductId): int {
    if sales == [] then 0 else Units(sales[0].items, id) + UnitsSold(sales[1..], id)
  }

  /** Reference: revenue of product `id` across all sales. */
  function ProductRevenue(sales: seq<Sale>, id: ProductId): int {
    if sales == [] then 0 else LineRevenue(sales[0].items, id) + ProductRevenue(sales[1..], id)
  }

  function LineRevenue(lines: seq<LineItem>, id: ProductId): int {
    if lines == [] then 0
    else (if lines[0].producto == Some(id) then lines[0].subtotal else 0) + LineRevenue(lines[1..], id)
  }

  lemma {:induction false} LineEntriesSums(items: seq<LineItem>, id: ProductId)
    ensures QtyOf(LineEntries(items), Some(id)) == Units(items, id)
    ensures AmountOf(LineEntries(items), Some(id)) == LineRevenue(items, id)
  {
    if items != [] {
      LineEntriesSums(items[1..], id);
      SumsOfConcat([Entry(items[0].producto, items[0].cantidad, items[0].subtotal)], LineEntries(items[1..]), Some(id));
    }
  }

  lemma {:induction false} ProductEntriesSums(sales: seq<Sale>, id: ProductId)
    ensures QtyOf(ProductEntries(sales), Some(id)) == UnitsSold(sales, id)
    ensures AmountOf(ProductEntries(sales), Some(id)) == ProductRevenue(sales, id)
  {
    if sales != [] {
      LineEntriesSums(sales[0].items, id);
      ProductEntriesSums(sales[1..], id);
      SumsOfConcat(LineEntries(sales[0].items), ProductEntries(sales[1..]), Some(id));
    }
  }

  /** Every resolved row comes from a group of an existing product and
      carries its name and sums, and every such group yields a row. */
  lemma {:induction false} ResolveRows(rows: seq<Row<Option<ProductId>>>, products: Catalog)
    ensures |Resolve(rows, products)| <= |rows|
    ensures forall t :: t in Resolve(rows, products) ==>
      t.productoId in products && t.nombre == products[t.productoId].nombre
      && Row(Some(t.productoId), t.cantidad, t.ventas) in rows
    ensures forall x :: x in rows && Known(products, x.key) ==>
      TopRow(x.key.value, products[x.key.value].nombre, x.cantidad, x.ventas) in Resolve(rows, products)
  {
    if rows != [] {
      ResolveRows(rows[1..], products);
      assert rows == [rows[0]] + rows[1..];
    }
  }

  /** Dropping rows keeps the order by units sold. */
  lemma {:induction false} ResolveSorted(rows: seq<Row<Option<ProductId>>>, products: Catalog)
    requires SortedDesc(rows, ByCantidad)
    ensures forall i, j :: 0 <= i < j < |Resolve(rows, products)| ==>
      Resolve(rows, products)[i].cantidad >= Resolve(rows, products)[j].cantidad
  {
    if rows != [] {
      var rest := Resolve(rows[1..], products);
      ResolveSorted(rows[1..], products);
      if Known(products, rows[0].key) {
        ResolveRows(rows[1..], products);
        var res := Resolve(rows, products);
        forall j | 0 < j < |res| ensures res[0].cantidad >= res[j].cantidad {
          assert res[j] == rest[j - 1];
          var x := Row(Some(res[j].productoId), res[j].cantidad, res[j].ventas);
          assert x in rows[1..];
          var m :| 0 <= m < |rows[1..]| && rows[1..][m] == x;
          assert rows[m + 1] == x;
        }
      }
    }
  }

  /** Rows with distinct products resolve to rows with distinct products. */
  lemma {:induction false} ResolveDistinct(rows: seq<Row<Option<ProductId>>>, products: Catalog)
    requires DistinctKeys(rows)
    ensures forall i, j :: 0 <= i < j < |Resolve(rows, products)| ==>
      Resolve(rows, products)[i].productoId != Resolve(rows, products)[j].productoId
  {
    if rows != [] {
      var rest := Resolve(rows[1..], products);
      ResolveDistinct(rows[1..], products);
      if Known(products, rows[0].key) {
        ResolveRows(rows[1..], products);
        var res := Resolve(rows, products);
        forall j | 0 < j < |res| ensures res[0].productoId != res[j].productoId {
          assert res[j] == rest[j - 1];
          var x := Row(Some(res[j].productoId), res[j].cantidad, res[j].ventas);
          assert x in rows[1..];
          var m :| 0 <= m < |rows[1..]| && rows[1..][m] == x;
          assert rows[m + 1] == x;
        }
      }
    }
  }

  /** The top-products report is rejected exactly when the limit is
      negative; otherwise it has at most `Limit` rows, ordered by units sold,
      largest first, at most one per product, each naming an existing product
      and carrying exactly its units sold and revenue over all sales. */
  lemma TopProductosCorrect(sales: seq<Sale>, products: Catalog, requested: Option<int>)
    ensures TopProductos(sales, products, requested).None? <==> Limit(requested) < 0
    ensures TopProductos(sales, products, requested).Some? ==>
      var r := TopProductos(sales, products, requested).value;
      && |r| <= Limit(requested)
      && (forall i, j :: 0 <= i < j < |r| ==> r[i].cantidad >= r[j].cantidad)
      && (forall i, j :: 0 <= i < j < |r| ==> r[i].productoId != r[j].productoId)
      && forall i :: 0 <= i < |r| ==>
           && r[i].productoId in products
           && r[i].nombre == products[r[i].productoId].nombre
           && r[i].cantidad == UnitsSold(sales, r[i].productoId)
           && r[i].ventas == ProductRevenue(sales, r[i].productoId)
  {
    var limit := Limit(requested);
    if limit >= 0 {
      var es := ProductEntries(sales);
      var tally := Tally(es);
      var ranked := SortDesc(tally, ByCantidad);
      var n := if limit < |ranked| then limit else |ranked|;
      var taken := ranked[..n];
      TallyCorrect(es);
      SortDescCorrect(tally, ByCantidad);
      PermutedTallyDistinct(es, ranked);
      ResolveRows(taken, products);
      ResolveSorted(taken, products);
      ResolveDistinct(taken, products);
      var r := Resolve(taken, products);
      forall i | 0 <= i < |r|
        ensures r[i].cantidad == UnitsSold(sales, r[i].productoId)
        ensures r[i].ventas == ProductRevenue(sales, r[i].productoId)
      {
        assert r[i] in r;
        var x := Row(Some(r[i].productoId), r[i].cantidad, r[i].ventas);
        assert x in taken;
        assert x in multiset(tally);
        ProductEntriesSums(sales, r[i].productoId);
      }
    }
  }

  /** Product `id` has at least one sale line. */
  predicate HasLines(sales: seq<Sale>, id: ProductId) {
    Some(id) in EntryKeys(ProductEntries(sales))
  }

  /** An existing product with sales is left out of the top-products report
      only when at least `Limit` other groups (the group of lines without a
      product included) sold at least as many units. */
  lemma TopProductosComplete(sales: seq<Sale>, products: Catalog, requested: Option<int>, id: ProductId)
    requires TopProductos(sales, products, requested).Some?
    requires id in products && HasLines(sales, id)
    requires forall t :: t in TopProductos(sales, products, requested).value ==> t.productoId != id
    ensures |Outranking(ProductEntries(sales), Some(id))| >= Limit(requested)
  {
    var limit := Limit(requested);
    var es := ProductEntries(sales);
    var tally := Tally(es);
    var ranked := SortDesc(tally, ByCantidad);
    var n := if limit < |ranked| then limit else |ranked|;
    TallyCorrect(es);
    SortDescCorrect(tally, ByCantidad);
    PermutedTallyDistinct(es, ranked);
    MultisetSameKeys(tally, ranked);
    ResolveRows(ranked[..n], products);
    var j :| 0 <= j < |ranked| && ranked[j].key == Some(id);
    assert ranked[j] in multiset(tally);
    PrefixOutranks(es, ranked, n, j);
  }
}
