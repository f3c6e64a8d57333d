/** The sale document and its embedded line items, with the consistency
    rule that ties a sale's total to its lines. */
module SaleModel {
  import opened Common

  /** One line of a sale. The product reference is optional; quantity, unit
      price (a snapshot, not a live reference) and subtotal are required. */
  datatype LineItem = LineItem(
    producto: Option<ProductId>,
    cantidad: int,
    precioUnitario: int,
    subtotal: int)

  /** A sale: optional customer, ordered line items, date, required total
      and a free-form optional payment method. */
  datatype Sale = Sale(
    cliente: Option<CustomerId>,
    items: seq<LineItem>,
    fecha: Date,
    total: int,
    metodoPago: Option<string>)

  /** A new line item as the schema validates it: `cantidad`,
      `precioUnitario` and `subtotal` must be present, `producto` need not. */
  function NewLineItem(
    producto: Option<ProductId>,
    cantidad: Option<int>,
    precioUnitario: Option<int>,
    subtotal: Option<int>): (r: Option<LineItem>)
    ensures r.Some? <==> cantidad.Some? && precioUnitario.Some? && subtotal.Some?
    ensures r.Some? ==> r.value.producto == producto && r.value.cantidad == cantidad.value
    ensures r.Some? ==> r.value.precioUnitario == precioUnitario.value && r.value.subtotal == subtotal.value
  {
    if cantidad.None? || precioUnitario.None? || subtotal.None? then None
    else Some(LineItem(producto, cantidad.value, precioUnitario.value, subtotal.value))
  }

  /** A new sale document as the schema validates and defaults it: `total`
      is required and `fecha` defaults to the moment of creation `now`. */
  function NewSale(
    cliente: Option<CustomerId>,
    items: seq<LineItem>,
    fecha: Option<Date>,
    now: Date,
    total: Option<int>,
    metodoPago: Option<string>): (r: Option<Sale>)
    ensures r.Some? <==> total.Some?
    ensures r.Some? ==> r.value.fecha == (if fecha.Some? then fecha.value else now)
    ensures r.Some? ==> r.value.items == items && r.value.total == total.value
    ensures r.Some? ==> r.value.cliente == cliente && r.value.metodoPago == metodoPago
  {
    if total.None? then None
    else Some(Sale(cliente, items, fecha.GetOr(now), total.value, metodoPago))
  }

  /** Sum of the line subtotals. */
  function Total(items: seq<LineItem>): int {
    if items == [] then 0 else items[0].subtotal + Total(items[1..])
  }

  /** Adding a line at the end adds its subtotal to the total. */
  lemma {:induction false} TotalAppend(items: seq<LineItem>, line: LineItem)
    ensures Total(items + [line]) == Total(items) + line.subtotal
  {
    if items != [] {
      assert (items + [line])[1..] == items[1..] + [line];
      TotalAppend(items[1..], line);
    }
  }

  /** Units of product `id` across the lines. */
  function Units(items: seq<LineItem>, id: ProductId): int {
    if items == [] then 0
    else (if items[0].producto == Some(id) then items[0].cantidad else 0) + Units(items[1..], id)
  }

  /** Every line's subtotal is its unit price times its quantity. */
  predicate LinesPriced(items: seq<LineItem>) {
    forall k :: 0 <= k < |items| ==> items[k].subtotal == items[k].precioUnitario * items[k].cantidad
  }

  /** A stored sale is consistent when its lines are priced and its total is
      the sum of their subtotals. */
  predicate Consistent(s: Sale) {
    LinesPriced(s.items) && s.total == Total(s.items)
  }
}
