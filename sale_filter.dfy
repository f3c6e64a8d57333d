/** The filter the sale list endpoint builds from its query parameters. */
module SaleFilter {
  import opened Common
  import opened SaleModel

  /** Optional constraints; an absent one does not constrain. An empty
      payment method counts as absent, like an empty query parameter. */
  datatype Filter = Filter(
    clienteId: Option<CustomerId>,
    start: Option<Date>,
    end: Option<Date>,
    metodoPago: Option<string>,
    montoMin: Option<int>,
    montoMax: Option<int>)

  const NoFilter := Filter(None, None, None, None, None, None)

  /** A sale matches when every supplied constraint holds: same customer,
      date within the inclusive range, same payment method, total within the
      inclusive amount range. */
  predicate Matches(s: Sale, f: Filter) {
    && (f.clienteId.None? || s.cliente == f.clienteId)
    && InRange(s.fecha, f.start, f.end)
    && (f.metodoPago.None? || f.metodoPago.value == "" || s.metodoPago == f.metodoPago)
    && (f.montoMin.None? || s.total >= f.montoMin.value)
    && (f.montoMax.None? || s.total <= f.montoMax.value)
  }

  /** The sales that match, each as often as it is stored, in their
      original order. */
  function Select(sales: seq<Sale>, f: Filter): (r: seq<Sale>)
    ensures |r| <= |sales|
    ensures forall s :: s in r <==> s in sales && Matches(s, f)
    ensures forall s :: multiset(r)[s] == if Matches(s, f) then multiset(sales)[s] else 0
  {
    if sales == [] then []
    else
      assert sales == [sales[0]] + sales[1..];
      (if Matches(sales[0], f) then [sales[0]] else []) + Select(sales[1..], f)
  }

  /** The selection keeps the stored order: selecting from two runs of
      sales one after the other gives the two selections one after the other. */
  lemma {:induction false} SelectConcat(a: seq<Sale>, b: seq<Sale>, f: Filter)
    ensures Select(a + b, f) == Select(a, f) + Select(b, f)
  {
    if a == [] {
      assert a + b == b;
    } else {
      assert (a + b)[0] == a[0] && (a + b)[1..] == a[1..] + b;
      SelectConcat(a[1..], b, f);
    }
  }

  /** With no parameter supplied, every sale is listed, in order. */
  lemma {:induction false} NoFilterSelectsAll(sales: seq<Sale>)
    ensures Select(sales, NoFilter) == sales
  {
    if sales != [] {
      NoFilterSelectsAll(sales[1..]);
      assert sales == [sales[0]] + sales[1..];
    }
  }
}
