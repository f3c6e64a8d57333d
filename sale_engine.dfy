/** The stock-adjusting write path of the sales controller: a store holding
    the product and sale collections, with one method per endpoint. Each
    method is proved against the pure definitions in module Inventory. */
module SaleEngine {
  import opened Common
  import opened ProductModel
  import opened SaleModel
  import opened Inventory

  /** Why a request was refused. */
  datatype Failure =
    | NoItems                                   // create without items, or with none
    | ItemsMissing                              // update without an items list
    | UnknownProduct(producto: Option<ProductId>) // a requested product does not exist

  /** Result of an operation, in place of the HTTP reply: `Ok` with the sale's
      id, `NotFound` for an unknown sale (404), `Invalid` for a rejected
      request (400). */
  datatype Status = Ok(id: SaleId) | NotFound | Invalid(failure: Failure)

  class Store {
    var products: Catalog
    var sales: map<SaleId, Sale>
    var nextId: SaleId

    /** Every stored sale is consistent, and new ids are fresh. */
    ghost predicate Valid()
      reads this
    {
      forall id :: id in sales ==> id < nextId && Consistent(sales[id])
    }

    /** No product has negative stock and no stored line a negative quantity.
      The source never checks `cantidad`, so this holds only while clients
      send non-negative quantities; the methods below preserve it under
      exactly that condition. */
    ghost predicate StockSound()
      reads this
    {
      && (forall id :: id in products ==> products[id].stock >= 0)
      && (forall id, k :: id in sales && 0 <= k < |sales[id].items| ==> sales[id].items[k].cantidad >= 0)
    }

    /** A store over an existing catalog, with no sales yet. */
    constructor (catalog: Catalog)
      ensures Valid()
      ensures products == catalog && sales == map[]
    {
      products := catalog;
      sales := map[];
      nextId := 0;
    }

    /** Prices and sells the requested lines in order, taking stock as it goes
      and summing the subtotals; stops at the first unknown product, keeping
      the stock already taken. */
    method SellLines(reqs: seq<LineRequest>) returns (pricing: Pricing, total: int)
      modifies this
      ensures (products, pricing) == SellAll(old(products), reqs)
      ensures pricing.Priced? ==> total == Total(pricing.lines)
      ensures sales == old(sales) && nextId == old(nextId)
    {
      var lines: seq<LineItem> := [];
      total := 0;
      var i := 0;
      assert reqs[i..] == reqs;
      PrependNothing(SellAll(products, reqs).1);
      while i < |reqs|
        invariant 0 <= i <= |reqs|
        invariant total == Total(lines)
        invariant SellAll(old(products), reqs)
          == (SellAll(products, reqs[i..]).0, PrependLines(lines, SellAll(products, reqs[i..]).1))
        invariant sales == old(sales) && nextId == old(nextId)
      {
        var it := reqs[i];
        assert reqs[i..][0] == it && reqs[i..][1..] == reqs[i + 1..];
        if !Known(products, it.producto) {
          return Missing(it.producto), total;
        }
        var prod := products[it.producto.value];
        var precio := UnitPrice(prod, it.precioUnitario);
        var subtotal := precio * it.cantidad;
        var line := NewLineItem(it.producto, Some(it.cantidad), Some(precio), Some(subtotal)).value;
        TotalAppend(lines, line);
        total := total + subtotal;
        products := products[it.producto.value := prod.(stock := Max(0, prod.stock - it.cantidad))];
        PrependTwice(lines, [line], SellAll(products, reqs[i + 1..]).1);
        lines := lines + [line];
        i := i + 1;
      }
      assert reqs[i..] == [];
      assert lines + [] == lines;
      pricing := Priced(lines);
    }

    /** Gives back the stock of each line whose product still exists. */
    method RestockLines(items: seq<LineItem>)
      modifies this
      ensures products == RestockAll(old(products), items)
      ensures sales == old(sales) && nextId == old(nextId)
    {
      var i := 0;
      assert items[i..] == items;
      while i < |items|
        invariant 0 <= i <= |items|
        invariant RestockAll(old(products), items) == RestockAll(products, items[i..])
        invariant sales == old(sales) && nextId == old(nextId)
      {
        var it := items[i];
        assert items[i..][0] == it && items[i..][1..] == items[i + 1..];
        if Known(products, it.producto) {
          var prod := products[it.producto.value];
          products := products[it.producto.value := prod.(stock := prod.stock + it.cantidad)];
        }
        i := i + 1;
      }
      assert items[i..] == [];
    }

    /** Records a sale. Refused, with nothing changed, when `items` is absent
      or empty. Otherwise the lines are priced and sold in order; an unknown
      product refuses the sale but keeps the stock taken for the lines before
      it. A new sale is dated `now` and its total is the sum of its lines. */
    method Create(cliente: Option<CustomerId>, items: Option<seq<LineRequest>>,
                  metodoPago: Option<string>, now: Date) returns (r: Status)
      requires Valid()
      modifies this
      ensures Valid()
      ensures items.None? || items.value == [] ==>
        r == Invalid(NoItems) && products == old(products) && sales == old(sales)
      ensures nextId == if r.Ok? then old(nextId) + 1 else old(nextId)
      ensures old(StockSound())
        && (items.Some? ==> forall k :: 0 <= k < |items.value| ==> items.value[k].cantidad >= 0)
        ==> StockSound()
      ensures items.Some? && items.value != [] ==>
        var (c, pricing) := SellAll(old(products), items.value);
        && products == c
        && (pricing.Missing? ==> r == Invalid(UnknownProduct(pricing.producto)) && sales == old(sales))
        && (pricing.Priced? ==>
              && r.Ok? && r.id !in old(sales)
              && sales == old(sales)[r.id := Sale(cliente, pricing.lines, now, Total(pricing.lines), metodoPago)])
    {
      if items.None? || |items.value| == 0 {
        return Invalid(NoItems);
      }
      var pricing, total := SellLines(items.value);
      SellAllFloor(old(products), items.value);
      if pricing.Missing? {
        return Invalid(UnknownProduct(pricing.producto));
      }
      SellAllPricing(old(products), items.value);
      var venta := NewSale(cliente, pricing.lines, None, now, Some(total), metodoPago).value;
      r := Ok(nextId);
      sales := sales[nextId := venta];
      nextId := nextId + 1;
    }

    /** Replaces a sale. An unknown id is refused with nothing changed.
      Otherwise the old lines are first restocked; then a missing items list
      is refused, and the new lines are priced and sold as in Create. On
      success the sale takes the new customer, lines, payment method and total,
      and the new date only when one is given. A refusal after the restock
      keeps the stock changes made so far. */
    method Update(id: SaleId, cliente: Option<CustomerId>, items: Option<seq<LineRequest>>,
                  metodoPago: Option<string>, fecha: Option<Date>) returns (r: Status)
      requires Valid()
      modifies this
      ensures Valid()
      ensures nextId == old(nextId)
      ensures old(StockSound())
        && (items.Some? ==> forall k :: 0 <= k < |items.value| ==> items.value[k].cantidad >= 0)
        ==> StockSound()
      ensures id !in old(sales) ==> r == NotFound && products == old(products) && sales == old(sales)
      ensures id in old(sales) && items.None? ==>
        && r == Invalid(ItemsMissing)
        && products == RestockAll(old(products), old(sales)[id].items)
        && sales == old(sales)
      ensures id in old(sales) && items.Some? ==>
        var (c, pricing) := SellAll(RestockAll(old(products), old(sales)[id].items), items.value);
        && products == c
        && (pricing.Missing? ==> r == Invalid(UnknownProduct(pricing.producto)) && sales == old(sales))
        && (pricing.Priced? ==>
              && r == Ok(id)
              && sales == old(sales)[id := old(sales)[id].(
                   cliente := cliente,
                   items := pricing.lines,
                   metodoPago := metodoPago,
                   total := Total(pricing.lines),
                   fecha := if fecha.Some? then fecha.value else old(sales)[id].fecha)])
    {
      if id !in sales {
        return NotFound;
      }
      var venta := sales[id];
      if old(StockSound()) {
        RestockAllFloor(products, venta.items);
      }
      RestockLines(venta.items);
      if items.None? {
        return Invalid(ItemsMissing);
      }
      ghost var restocked := products;
      var pricing, total := SellLines(items.value);
      SellAllFloor(restocked, items.value);
      if pricing.Missing? {
        return Invalid(UnknownProduct(pricing.producto));
      }
      SellAllPricing(restocked, items.value);
      venta := venta.(cliente := cliente, items := pricing.lines, metodoPago := metodoPago, total := total);
      if fecha.Some? {
        venta := venta.(fecha := fecha.value);
      }
      sales := sales[id := venta];
      r := Ok(id);
    }

    /** Deletes a sale. An unknown id is refused with nothing changed;
      otherwise the sale's lines are restocked and the sale is removed. */
    method Remove(id: SaleId) returns (r: Status)
      requires Valid()
      modifies this
      ensures Valid()
      ensures nextId == old(nextId)
      ensures old(StockSound()) ==> StockSound()
      ensures id !in old(sales) ==> r == NotFound && products == old(products) && sales == old(sales)
      ensures id in old(sales) ==>
        && r == Ok(id)
        && products == RestockAll(old(products), old(sales)[id].items)
        && sales == old(sales) - {id}
    {
      if id !in sales {
        return NotFound;
      }
      if old(StockSound()) {
        RestockAllFloor(products, sales[id].items);
      }
      RestockLines(sales[id].items);
      sales := sales - {id};
      r := Ok(id);
    }
  }
}
