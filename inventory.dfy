/** The write path of the sales controller as pure functions over the
    product catalog: pricing and selling a list of requested lines (create,
    second half of update) and restocking the lines of an existing sale
    (remove, first half of update). Lines are processed one after another in
    list order. */
module Inventory {
  import opened Common
  import opened ProductModel
  import opened SaleModel

  /** One requested line as the client sends it: product id, quantity and an
      optional unit price that counts only when the product has none. */
  datatype LineRequest = LineRequest(
    producto: Option<ProductId>,
    cantidad: int,
    precioUnitario: Option<int>)

  /** Outcome of pricing a request list: the priced lines, or the reference
      of the first requested product that is not in the catalog. */
  datatype Pricing = Priced(lines: seq<LineItem>) | Missing(producto: Option<ProductId>)

  /** Unit price of a line: the product's price when it is non-zero, else the
      client's price when given and non-zero, else 0. */
  function UnitPrice(p: Product, offered: Option<int>): int {
    if p.precioUnitario != 0 then p.precioUnitario
    else if offered.Some? && offered.value != 0 then offered.value
    else 0
  }

  /** Selling `cantidad` units lowers stock, never below zero. */
  function Sell(p: Product, cantidad: int): Product {
    p.(stock := Max(0, p.stock - cantidad))
  }

  /** Reversing a line adds its quantity back, without a cap. */
  function Restock(p: Product, cantidad: int): Product {
    p.(stock := p.stock + cantidad)
  }

  function PrependLines(lines: seq<LineItem>, r: Pricing): Pricing {
    if r.Priced? then Priced(lines + r.lines) else r
  }

  lemma PrependNothing(r: Pricing)
    ensures PrependLines([], r) == r
  {
  }

  lemma PrependTwice(a: seq<LineItem>, b: seq<LineItem>, r: Pricing)
    ensures PrependLines(a, PrependLines(b, r)) == PrependLines(a + b, r)
  {
  }

  /** Prices and sells the requested lines in order. The first request whose
      product is unknown stops the run; stock already taken for the requests
      before it stays taken. Returns the new catalog and the outcome. */
  function SellAll(c: Catalog, reqs: seq<LineRequest>): (Catalog, Pricing) {
    if reqs == [] then (c, Priced([]))
    else if !Known(c, reqs[0].producto) then (c, Missing(reqs[0].producto))
    else
      var id := reqs[0].producto.value;
      var price := UnitPrice(c[id], reqs[0].precioUnitario);
      var line := LineItem(Some(id), reqs[0].cantidad, price, price * reqs[0].cantidad);
      var rest := SellAll(c[id := Sell(c[id], reqs[0].cantidad)], reqs[1..]);
      (rest.0, PrependLines([line], rest.1))
  }

  /** Gives back the stock of every line whose product still exists, in
      order; lines of deleted products are skipped. */
  function RestockAll(c: Catalog, lines: seq<LineItem>): Catalog {
    if lines == [] then c
    else
      var c' := if Known(c, lines[0].producto)
                then c[lines[0].producto.value := Restock(c[lines[0].producto.value], lines[0].cantidad)]
                else c;
      RestockAll(c', lines[1..])
  }

  // ---------------------------------------------------------------------
  // Per-product reference definitions

  /** Stock of product `id` after the requests are applied one by one,
      starting from `s`, stopping at the first request whose product is not
      among `known`. */
  function Drain(known: set<ProductId>, s: int, reqs: seq<LineRequest>, id: ProductId): int
    decreases |reqs|
  {
    if reqs == [] || !(reqs[0].producto.Some? && reqs[0].producto.value in known) then s
    else Drain(known, if reqs[0].producto == Some(id) then Max(0, s - reqs[0].cantidad) else s, reqs[1..], id)
  }

  /** Total quantity requested of product `id`. */
  function Demand(reqs: seq<LineRequest>, id: ProductId): int {
    if reqs == [] then 0
    else (if reqs[0].producto == Some(id) then reqs[0].cantidad else 0) + Demand(reqs[1..], id)
  }

  /** Some request among the ones a run reaches names product `id`. */
  predicate Touches(known: set<ProductId>, reqs: seq<LineRequest>, id: ProductId) {
    exists k :: 0 <= k < |reqs| && reqs[k].producto == Some(id)
      && forall j :: 0 <= j <= k ==> reqs[j].producto.Some? && reqs[j].producto.value in known
  }

  // ---------------------------------------------------------------------
  // Properties of selling

  /** Pricing succeeds exactly when every requested product exists; then there
      is one line per request, in order, carrying the request's product and
      quantity, the unit price taken from the catalog as it was before the run
      (selling changes only stock), and subtotal = price * quantity. Otherwise
      the failure names the first unknown reference. */
  lemma {:induction false} SellAllPricing(c: Catalog, reqs: seq<LineRequest>)
    ensures SellAll(c, reqs).1.Priced? <==> forall k :: 0 <= k < |reqs| ==> Known(c, reqs[k].producto)
    ensures SellAll(c, reqs).1.Priced? ==>
      var lines := SellAll(c, reqs).1.lines;
      && |lines| == |reqs|
      && forall k :: 0 <= k < |reqs| ==>
           && lines[k].producto == reqs[k].producto
           && lines[k].cantidad == reqs[k].cantidad
           && lines[k].precioUnitario == UnitPrice(c[reqs[k].producto.value], reqs[k].precioUnitario)
           && lines[k].subtotal == lines[k].precioUnitario * lines[k].cantidad
    ensures SellAll(c, reqs).1.Missing? ==>
      exists k :: 0 <= k < |reqs| && !Known(c, reqs[k].producto)
        && SellAll(c, reqs).1.producto == reqs[k].producto
        && forall j :: 0 <= j < k ==> Known(c, reqs[j].producto)
  {
    if reqs != [] && Known(c, reqs[0].producto) {
      var id := reqs[0].producto.value;
      var c' := c[id := Sell(c[id], reqs[0].cantidad)];
      SellAllPricing(c', reqs[1..]);
      assert c'.Keys == c.Keys;
      assert forall x :: x in c ==> c'[x].precioUnitario == c[x].precioUnitario;
      var r := SellAll(c, reqs).1;
      var rest := SellAll(c', reqs[1..]).1;
      if rest.Priced? {
        assert forall k :: 1 <= k < |reqs| ==> reqs[1..][k - 1] == reqs[k];
      } else {
        var k' :| 0 <= k' < |reqs[1..]| && !Known(c', reqs[1..][k'].producto)
          && rest.producto == reqs[1..][k'].producto
          && forall j :: 0 <= j < k' ==> Known(c', reqs[1..][j].producto);
        assert !Known(c, reqs[k' + 1].producto);
        assert forall j :: 0 <= j < k' + 1 ==> Known(c, reqs[j].producto) by {
          forall j | 0 <= j < k' + 1 ensures Known(c, reqs[j].producto) {
            if j > 0 { assert reqs[j] == reqs[1..][j - 1]; }
          }
        }
      }
    } else if reqs != [] {
      assert !Known(c, reqs[0].producto);
    }
  }

  /** When the `k`-th request is the first whose product is unknown, the
      sale fails naming it, and the catalog is the one left by selling the
      requests before it: their stock is taken and not given back. */
  lemma {:induction false} FailureKeepsPrefix(c: Catalog, reqs: seq<LineRequest>, k: int)
    requires 0 <= k < |reqs| && !Known(c, reqs[k].producto)
    requires forall j :: 0 <= j < k ==> Known(c, reqs[j].producto)
    ensures SellAll(c, reqs).1 == Missing(reqs[k].producto)
    ensures SellAll(c, reqs[..k]).1.Priced?
    ensures SellAll(c, reqs).0 == SellAll(c, reqs[..k]).0
  {
    if k > 0 {
      var id := reqs[0].producto.value;
      var c' := c[id := Sell(c[id], reqs[0].cantidad)];
      assert c'.Keys == c.Keys;
      assert forall j :: 0 <= j < |reqs| - 1 ==> reqs[1..][j] == reqs[j + 1];
      FailureKeepsPrefix(c', reqs[1..], k - 1);
      assert reqs[..k][0] == reqs[0] && reqs[..k][1..] == reqs[1..][..k - 1];
    }
  }

  /** Selling leaves the catalog's set of products and every field but stock
      as they were; each product's stock is exactly `Drain` of its old stock
      over the requests the run reached. */
  lemma {:induction false} SellAllStock(c: Catalog, reqs: seq<LineRequest>)
    ensures SellAll(c, reqs).0.Keys == c.Keys
    ensures forall id :: id in c ==>
      SellAll(c, reqs).0[id] == c[id].(stock := Drain(c.Keys, c[id].stock, reqs, id))
  {
    if reqs != [] && Known(c, reqs[0].producto) {
      var id0 := reqs[0].producto.value;
      var c' := c[id0 := Sell(c[id0], reqs[0].cantidad)];
      SellAllStock(c', reqs[1..]);
      assert c'.Keys == c.Keys;
      forall id | id in c
        ensures SellAll(c, reqs).0[id] == c[id].(stock := Drain(c.Keys, c[id].stock, reqs, id))
      {
        var s' := if reqs[0].producto == Some(id) then Max(0, c[id].stock - reqs[0].cantidad) else c[id].stock;
        assert c'[id].stock == s';
        assert Drain(c.Keys, c[id].stock, reqs, id) == Drain(c.Keys, s', reqs[1..], id);
      }
    }
  }

  /** A product's stock after a run is either untouched or not negative; it
      is not negative when the run touched it; and it is untouched when the run
      never reached a request for it. */
  lemma {:induction false} DrainFloor(known: set<ProductId>, s: int, reqs: seq<LineRequest>, id: ProductId)
    ensures Drain(known, s, reqs, id) >= 0 || Drain(known, s, reqs, id) == s
    ensures Touches(known, reqs, id) ==> Drain(known, s, reqs, id) >= 0
    ensures !Touches(known, reqs, id) ==> Drain(known, s, reqs, id) == s
    decreases |reqs|
  {
    if reqs != [] && reqs[0].producto.Some? && reqs[0].producto.value in known {
      var s' := if reqs[0].producto == Some(id) then Max(0, s - reqs[0].cantidad) else s;
      DrainFloor(known, s', reqs[1..], id);
      if Touches(known, reqs[1..], id) {
        var k :| 0 <= k < |reqs[1..]| && reqs[1..][k].producto == Some(id)
          && forall j :: 0 <= j <= k ==> reqs[1..][j].producto.Some? && reqs[1..][j].producto.value in known;
        assert reqs[k + 1].producto == Some(id);
        assert forall j :: 0 <= j <= k + 1 ==> reqs[j].producto.Some? && reqs[j].producto.value in known by {
          forall j | 0 <= j <= k + 1 ensures reqs[j].producto.Some? && reqs[j].producto.value in known {
            if j > 0 { assert reqs[j] == reqs[1..][j - 1]; }
          }
        }
        assert Touches(known, reqs, id);
      }
      if reqs[0].producto == Some(id) {
        assert Touches(known, reqs, id);
      } else if Touches(known, reqs, id) {
        var k :| 0 <= k < |reqs| && reqs[k].producto == Some(id)
          && forall j :: 0 <= j <= k ==> reqs[j].producto.Some? && reqs[j].producto.value in known;
        assert k > 0;
        assert reqs[1..][k - 1].producto == Some(id);
        assert Touches(known, reqs[1..], id);
      }
    }
  }

  /** With no overselling (every quantity non-negative and the stock covering
      the whole demand) a fully priced run takes exactly the demanded quantity. */
  lemma {:induction false} DrainExact(known: set<ProductId>, s: int, reqs: seq<LineRequest>, id: ProductId)
    requires forall k :: 0 <= k < |reqs| ==> reqs[k].producto.Some? && reqs[k].producto.value in known
    requires forall k :: 0 <= k < |reqs| ==> reqs[k].cantidad >= 0
    requires s >= Demand(reqs, id)
    ensures Drain(known, s, reqs, id) == s - Demand(reqs, id)
    decreases |reqs|
  {
    if reqs != [] {
      DemandNonNegative(reqs[1..], id);
      var s' := if reqs[0].producto == Some(id) then Max(0, s - reqs[0].cantidad) else s;
      DrainExact(known, s', reqs[1..], id);
    }
  }

  lemma {:induction false} DemandNonNegative(reqs: seq<LineRequest>, id: ProductId)
    requires forall k :: 0 <= k < |reqs| ==> reqs[k].cantidad >= 0
    ensures Demand(reqs, id) >= 0
  {
    if reqs != [] {
      DemandNonNegative(reqs[1..], id);
    }
  }

  /** The lines of a priced run carry exactly the requested quantities. */
  lemma {:induction false} SoldLinesReturnDemand(c: Catalog, reqs: seq<LineRequest>, id: ProductId)
    requires SellAll(c, reqs).1.Priced?
    ensures Units(SellAll(c, reqs).1.lines, id) == Demand(reqs, id)
  {
    if reqs != [] {
      var id0 := reqs[0].producto.value;
      var c' := c[id0 := Sell(c[id0], reqs[0].cantidad)];
      SoldLinesReturnDemand(c', reqs[1..], id);
      var lines := SellAll(c, reqs).1.lines;
      assert lines[1..] == SellAll(c', reqs[1..]).1.lines;
    }
  }

  // ---------------------------------------------------------------------
  // Properties of restocking

  /** Restocking keeps the catalog's products and every field but stock; each
      remaining product gets back exactly the quantity its lines carry. */
  lemma {:induction false} RestockAllStock(c: Catalog, lines: seq<LineItem>)
    ensures RestockAll(c, lines).Keys == c.Keys
    ensures forall id :: id in c ==>
      RestockAll(c, lines)[id] == c[id].(stock := c[id].stock + Units(lines, id))
  {
    if lines != [] {
      var c' := if Known(c, lines[0].producto)
                then c[lines[0].producto.value := Restock(c[lines[0].producto.value], lines[0].cantidad)]
                else c;
      RestockAllStock(c', lines[1..]);
      forall id | id in c
        ensures RestockAll(c, lines)[id] == c[id].(stock := c[id].stock + Units(lines, id))
      {
        if lines[0].producto == Some(id) {
          assert c'[id].stock == c[id].stock + lines[0].cantidad;
        } else {
          assert c'[id] == c[id];
        }
      }
    }
  }

  // ---------------------------------------------------------------------
  // Round trip and stock floor

  /** Selling from stock `s` clamps nothing for product `id`: every request
      the run reaches that names `id` finds at least its quantity in stock
      (a negative quantity always does). Requests for other products, and
      products no request names, impose nothing. */
  predicate Unclamped(known: set<ProductId>, s: int, reqs: seq<LineRequest>, id: ProductId)
    decreases |reqs|
  {
    if reqs == [] || !(reqs[0].producto.Some? && reqs[0].producto.value in known) then true
    else if reqs[0].producto == Some(id) then s - reqs[0].cantidad >= 0 && Unclamped(known, s - reqs[0].cantidad, reqs[1..], id)
    else Unclamped(known, s, reqs[1..], id)
  }

  /** A run that clamps nothing and reaches every request takes exactly the
      demanded quantity, whatever the signs of the quantities. */
  lemma {:induction false} DrainUnclamped(known: set<ProductId>, s: int, reqs: seq<LineRequest>, id: ProductId)
    requires forall k :: 0 <= k < |reqs| ==> reqs[k].producto.Some? && reqs[k].producto.value in known
    requires Unclamped(known, s, reqs, id)
    ensures Drain(known, s, reqs, id) == s - Demand(reqs, id)
    decreases |reqs|
  {
    if reqs != [] {
      var s' := if reqs[0].producto == Some(id) then s - reqs[0].cantidad else s;
      DrainUnclamped(known, s', reqs[1..], id);
    }
  }

  /** Non-negative quantities whose total the stock covers clamp nothing. */
  lemma {:induction false} CoveredDemandUnclamped(known: set<ProductId>, s: int, reqs: seq<LineRequest>, id: ProductId)
    requires forall k :: 0 <= k < |reqs| ==> reqs[k].cantidad >= 0
    requires s >= Demand(reqs, id)
    ensures Unclamped(known, s, reqs, id)
    decreases |reqs|
  {
    if reqs != [] {
      DemandNonNegative(reqs[1..], id);
      var s' := if reqs[0].producto == Some(id) then s - reqs[0].cantidad else s;
      CoveredDemandUnclamped(known, s', reqs[1..], id);
    }
  }

  /** Removing a sale restores the catalog it was created from whenever
      creating it clamped no product's stock at zero. Products the sale does
      not name may hold any stock, and quantities may be negative. */
  lemma RemoveUndoesCreate(c: Catalog, reqs: seq<LineRequest>)
    requires SellAll(c, reqs).1.Priced?
    requires forall id :: id in c ==> Unclamped(c.Keys, c[id].stock, reqs, id)
    ensures RestockAll(SellAll(c, reqs).0, SellAll(c, reqs).1.lines) == c
  {
    var (c', p) := SellAll(c, reqs);
    SellAllPricing(c, reqs);
    SellAllStock(c, reqs);
    RestockAllStock(c', p.lines);
    forall id | id in c ensures RestockAll(c', p.lines)[id] == c[id] {
      DrainUnclamped(c.Keys, c[id].stock, reqs, id);
      SoldLinesReturnDemand(c, reqs, id);
    }
  }

  /** Updating a sale whose creation clamped nothing acts on the stock the
      sale was created from: reversing its lines and then selling the new
      request list gives the same catalog and lines as selling the new list in
      the first place. */
  lemma UpdateActsOnOriginalStock(c: Catalog, reqs: seq<LineRequest>, newReqs: seq<LineRequest>)
    requires SellAll(c, reqs).1.Priced?
    requires forall id :: id in c ==> Unclamped(c.Keys, c[id].stock, reqs, id)
    ensures SellAll(RestockAll(SellAll(c, reqs).0, SellAll(c, reqs).1.lines), newReqs) == SellAll(c, newReqs)
  {
    RemoveUndoesCreate(c, reqs);
  }

  /** Stock never goes negative by a sale: if it starts non-negative it
      stays so, and after a fully priced run every requested product has
      non-negative stock whatever it had before (overselling succeeds and
      clamps at zero). */
  lemma SellAllFloor(c: Catalog, reqs: seq<LineRequest>)
    ensures (forall id :: id in c ==> c[id].stock >= 0) ==>
      forall id :: id in SellAll(c, reqs).0 ==> SellAll(c, reqs).0[id].stock >= 0
    ensures SellAll(c, reqs).1.Priced? ==>
      forall k :: 0 <= k < |reqs| ==>
        Known(SellAll(c, reqs).0, reqs[k].producto) && SellAll(c, reqs).0[reqs[k].producto.value].stock >= 0
  {
    SellAllStock(c, reqs);
    SellAllPricing(c, reqs);
    forall id | id in c ensures SellAll(c, reqs).0[id].stock >= 0 || SellAll(c, reqs).0[id].stock == c[id].stock {
      DrainFloor(c.Keys, c[id].stock, reqs, id);
    }
    if SellAll(c, reqs).1.Priced? {
      forall k | 0 <= k < |reqs|
        ensures Known(SellAll(c, reqs).0, reqs[k].producto) && SellAll(c, reqs).0[reqs[k].producto.value].stock >= 0
      {
        var id := reqs[k].producto.value;
        assert forall j :: 0 <= j <= k ==> Known(c, reqs[j].producto);
        assert Touches(c.Keys, reqs, id);
        DrainFloor(c.Keys, c[id].stock, reqs, id);
      }
    }
  }

  /** Restocking lines of non-negative quantity keeps stock non-negative. */
  lemma {:induction false} RestockAllFloor(c: Catalog, lines: seq<LineItem>)
    requires forall id :: id in c ==> c[id].stock >= 0
    requires forall k :: 0 <= k < |lines| ==> lines[k].cantidad >= 0
    ensures forall id :: id in RestockAll(c, lines) ==> RestockAll(c, lines)[id].stock >= 0
  {
    RestockAllStock(c, lines);
    forall id | id in c ensures Units(lines, id) >= 0 {
      UnitsNonNegative(lines, id);
    }
  }

  /** Quantities are not checked, so a negative one can drive stock below
      zero: selling -5 and then 5 units of a product with no stock leaves it
      at 0, and reversing the first sale then takes it to -5. */
  lemma NegativeQuantityBreaksFloor()
    ensures
      var c := map[7 := Product("p", None, 100, 0, None)];
      var (c1, p1) := SellAll(c, [LineRequest(Some(7), -5, None)]);
      var (c2, p2) := SellAll(c1, [LineRequest(Some(7), 5, None)]);
      && p1.Priced? && p2.Priced? && 7 in RestockAll(c2, p1.lines)
      && RestockAll(c2, p1.lines)[7].stock == -5
  {
    var c := map[7 := Product("p", None, 100, 0, None)];
    var r1 := [LineRequest(Some(7), -5, None)];
    var r2 := [LineRequest(Some(7), 5, None)];
    assert r1[1..] == [] && r2[1..] == [];
    var c1 := c[7 := Sell(c[7], -5)];
    assert c1[7].stock == 5;
    var l1 := LineItem(Some(7), -5, 100, -500);
    assert [l1] + [] == [l1];
    assert SellAll(c, r1) == (c1, Priced([l1]));
    var c2 := c1[7 := Sell(c1[7], 5)];
    assert c2[7].stock == 0;
    var l2 := LineItem(Some(7), 5, 100, 500);
    assert [l2] + [] == [l2];
    assert SellAll(c1, r2) == (c2, Priced([l2]));
    assert [l1][1..] == [];
    var c3 := c2[7 := Restock(c2[7], -5)];
    assert RestockAll(c2, [l1]) == RestockAll(c3, []);
  }

  lemma {:induction false} UnitsNonNegative(lines: seq<LineItem>, id: ProductId)
    requires forall k :: 0 <= k < |lines| ==> lines[k].cantidad >= 0
    ensures Units(lines, id) >= 0
  {
    if lines != [] {
      UnitsNonNegative(lines[1..], id);
    }
  }
}
