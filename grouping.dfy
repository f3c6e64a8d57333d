/** The relational steps the report pipelines are made of: group rows by a
    key summing two quantities (`$group` with `$sum`), and order rows by one
    of those sums, largest first (`$sort` with -1). */
module Grouping {

  /** One unwound sale line: a grouping key, a quantity and an amount. */
  datatype Entry<K> = Entry(key: K, cantidad: int, ventas: int)

  /** One group: its key and the two sums over the entries with that key. */
  datatype Row<K> = Row(key: K, cantidad: int, ventas: int)

  /** Which sum a sort orders by. */
  datatype By = ByCantidad | ByVentas

  function Weight<K>(r: Row<K>, order: By): int {
    match order
    case ByCantidad => r.cantidad
    case ByVentas => r.ventas
  }

  // ---------------------------------------------------------------------
  // Reference sums

  /** Sum of the quantities of the entries with key `k`. */
  function QtyOf<K(==)>(es: seq<Entry<K>>, k: K): int {
    if es == [] then 0 else (if es[0].key == k then es[0].cantidad else 0) + QtyOf(es[1..], k)
  }

  /** Sum of the amounts of the entries with key `k`. */
  function AmountOf<K(==)>(es: seq<Entry<K>>, k: K): int {
    if es == [] then 0 else (if es[0].key == k then es[0].ventas else 0) + AmountOf(es[1..], k)
  }

  function EntryKeys<K(==)>(es: seq<Entry<K>>): set<K> {
    set i | 0 <= i < |es| :: es[i].key
  }

  function RowKeys<K(==)>(rows: seq<Row<K>>): set<K> {
    set i | 0 <= i < |rows| :: rows[i].key
  }

  lemma RowKeysCons<K>(r: Row<K>, rows: seq<Row<K>>)
    ensures RowKeys([r] + rows) == {r.key} + RowKeys(rows)
  {
    var t := [r] + rows;
    forall k | k in RowKeys(t) ensures k in {r.key} + RowKeys(rows) {
      var j :| 0 <= j < |t| && t[j].key == k;
      if j > 0 {
        assert rows[j - 1].key == k;
      }
    }
    forall k | k in {r.key} + RowKeys(rows) ensures k in RowKeys(t) {
      if k == r.key {
        assert t[0].key == k;
      } else {
        var j :| 0 <= j < |rows| && rows[j].key == k;
        assert t[j + 1].key == k;
      }
    }
  }

  lemma EntryKeysCons<K>(es: seq<Entry<K>>)
    requires es != []
    ensures EntryKeys(es) == {es[0].key} + EntryKeys(es[1..])
  {
  }

  lemma EntryKeysConcat<K>(a: seq<Entry<K>>, b: seq<Entry<K>>)
    ensures EntryKeys(a + b) == EntryKeys(a) + EntryKeys(b)
  {
    var t := a + b;
    forall k | k in EntryKeys(t) ensures k in EntryKeys(a) + EntryKeys(b) {
      var j :| 0 <= j < |t| && t[j].key == k;
      if j >= |a| {
        assert b[j - |a|].key == k;
      }
    }
    forall k | k in EntryKeys(a) + EntryKeys(b) ensures k in EntryKeys(t) {
      if k in EntryKeys(a) {
        var j :| 0 <= j < |a| && a[j].key == k;
        assert t[j].key == k;
      } else {
        var j :| 0 <= j < |b| && b[j].key == k;
        assert t[|a| + j].key == k;
      }
    }
  }

  predicate DistinctKeys<K(==)>(rows: seq<Row<K>>) {
    forall i, j :: 0 <= i < j < |rows| ==> rows[i].key != rows[j].key
  }

  lemma {:induction false} SumsOfConcat<K>(a: seq<Entry<K>>, b: seq<Entry<K>>, k: K)
    ensures QtyOf(a + b, k) == QtyOf(a, k) + QtyOf(b, k)
    ensures AmountOf(a + b, k) == AmountOf(a, k) + AmountOf(b, k)
  {
    if a == [] {
      assert a + b == b;
    } else {
      assert (a + b)[1..] == a[1..] + b;
      SumsOfConcat(a[1..], b, k);
    }
  }

  // ---------------------------------------------------------------------
  // Group by key

  /** Position of the row with key `k`, or -1 when there is none. */
  function IndexOfKey<K(==)>(rows: seq<Row<K>>, k: K): (i: int)
    ensures -1 <= i < |rows|
    ensures i >= 0 ==> rows[i].key == k
    ensures i < 0 ==> k !in RowKeys(rows)
  {
    if rows == [] then -1
    else if rows[0].key == k then 0
    else
      var j := IndexOfKey(rows[1..], k);
      assert RowKeys(rows) == {rows[0].key} + RowKeys(rows[1..]) by {
        assert forall i :: 0 < i < |rows| ==> rows[i] == rows[1..][i - 1];
      }
      if j < 0 then -1 else j + 1
  }

  /** Groups the entries by key, one row per key, summing quantity and amount
      separately. */
  function Tally<K(==)>(es: seq<Entry<K>>): seq<Row<K>> {
    if es == [] then []
    else
      var rows := Tally(es[1..]);
      var e := es[0];
      var i := IndexOfKey(rows, e.key);
      if i < 0 then [Row(e.key, e.cantidad, e.ventas)] + rows
      else rows[i := Row(e.key, rows[i].cantidad + e.cantidad, rows[i].ventas + e.ventas)]
  }

  /** Each row of a tally sums exactly the entries with its key, no key has
      two rows, and the keys are exactly those of the entries. */
  lemma {:induction false} TallyCorrect<K>(es: seq<Entry<K>>)
    ensures DistinctKeys(Tally(es))
    ensures RowKeys(Tally(es)) == EntryKeys(es)
    ensures forall r :: r in Tally(es) ==> r.cantidad == QtyOf(es, r.key) && r.ventas == AmountOf(es, r.key)
  {
    if es != [] {
      var rows := Tally(es[1..]);
      TallyCorrect(es[1..]);
      var e := es[0];
      var i := IndexOfKey(rows, e.key);
      EntryKeysCons(es);
      if i < 0 {
        var t := [Row(e.key, e.cantidad, e.ventas)] + rows;
        assert forall j :: 0 < j < |t| ==> t[j] == rows[j - 1];
        RowKeysCons(t[0], rows);
        forall r | r in t ensures r.cantidad == QtyOf(es, r.key) && r.ventas == AmountOf(es, r.key) {
          if r != t[0] {
            assert r in rows;
            assert r.key != e.key;
          } else {
            assert e.key !in EntryKeys(es[1..]);
            KeyAbsentSumsZero(es[1..], e.key);
          }
        }
      } else {
        var t := rows[i := Row(e.key, rows[i].cantidad + e.cantidad, rows[i].ventas + e.ventas)];
        assert RowKeys(t) == RowKeys(rows) by {
          assert forall j :: 0 <= j < |t| ==> t[j].key == rows[j].key;
        }
        forall r | r in t ensures r.cantidad == QtyOf(es, r.key) && r.ventas == AmountOf(es, r.key) {
          var j :| 0 <= j < |t| && t[j] == r;
          if j != i {
            assert r == rows[j] && r.key != e.key;
          } else {
            assert rows[i] in rows;
          }
        }
      }
    }
  }

  /** A key that occurs in no entry sums to zero. */
  lemma {:induction false} KeyAbsentSumsZero<K>(es: seq<Entry<K>>, k: K)
    requires k !in EntryKeys(es)
    ensures QtyOf(es, k) == 0 && AmountOf(es, k) == 0
  {
    if es != [] {
      assert es[0].key != k;
      EntryKeysCons(es);
      KeyAbsentSumsZero(es[1..], k);
    }
  }

  // ---------------------------------------------------------------------
  // Sort by a sum, largest first

  predicate SortedDesc<K(==)>(rows: seq<Row<K>>, order: By) {
    forall i, j :: 0 <= i < j < |rows| ==> Weight(rows[i], order) >= Weight(rows[j], order)
  }

  /** Inserts `r` into rows sorted largest first, ahead of every row that does
      not weigh more, so rows of equal weight keep their order. */
  function Insert<K(==)>(r: Row<K>, rows: seq<Row<K>>, order: By): seq<Row<K>> {
    if rows == [] || Weight(rows[0], order) <= Weight(r, order) then [r] + rows
    else [rows[0]] + Insert(r, rows[1..], order)
  }

  /** Orders rows by the chosen sum, largest first (insertion sort). */
  function SortDesc<K(==)>(rows: seq<Row<K>>, order: By): seq<Row<K>> {
    if rows == [] then [] else Insert(rows[0], SortDesc(rows[1..], order), order)
  }

  lemma {:induction false} InsertBounded<K>(r: Row<K>, rows: seq<Row<K>>, order: By, w: int)
    requires Weight(r, order) <= w
    requires forall j :: 0 <= j < |rows| ==> Weight(rows[j], order) <= w
    ensures forall j :: 0 <= j < |Insert(r, rows, order)| ==> Weight(Insert(r, rows, order)[j], order) <= w
  {
    if rows != [] && Weight(rows[0], order) > Weight(r, order) {
      InsertBounded(r, rows[1..], order, w);
    }
  }

  lemma {:induction false} InsertSorted<K>(r: Row<K>, rows: seq<Row<K>>, order: By)
    requires SortedDesc(rows, order)
    ensures SortedDesc(Insert(r, rows, order), order)
  {
    if rows != [] && Weight(rows[0], order) > Weight(r, order) {
      InsertSorted(r, rows[1..], order);
      InsertBounded(r, rows[1..], order, Weight(rows[0], order));
    }
  }

  lemma {:induction false} InsertPermutes<K>(r: Row<K>, rows: seq<Row<K>>, order: By)
    ensures multiset(Insert(r, rows, order)) == multiset(rows) + multiset{r}
  {
    if rows != [] && Weight(rows[0], order) > Weight(r, order) {
      InsertPermutes(r, rows[1..], order);
      assert rows == [rows[0]] + rows[1..];
    }
  }

  /** Sorting yields rows ordered largest first that are a permutation of its
      input. */
  lemma {:induction false} SortDescCorrect<K>(rows: seq<Row<K>>, order: By)
    ensures SortedDesc(SortDesc(rows, order), order)
    ensures multiset(SortDesc(rows, order)) == multiset(rows)
  {
    if rows != [] {
      SortDescCorrect(rows[1..], order);
      InsertSorted(rows[0], SortDesc(rows[1..], order), order);
      InsertPermutes(rows[0], SortDesc(rows[1..], order), order);
      assert rows == [rows[0]] + rows[1..];
    }
  }

  /** A permutation of a tally keeps one row per key: two rows with the same
      key would be the same value twice. */
  lemma PermutedTallyDistinct<K>(es: seq<Entry<K>>, rows: seq<Row<K>>)
    requires multiset(rows) == multiset(Tally(es))
    ensures DistinctKeys(rows)
  {
    TallyCorrect(es);
    forall i, j | 0 <= i < j < |rows| ensures rows[i].key != rows[j].key {
      if rows[i].key == rows[j].key {
        assert rows[i] in multiset(Tally(es)) && rows[j] in multiset(Tally(es));
        assert rows[i] == rows[j];
        CountAtLeastTwo(rows, i, j);
        DistinctCountAtMostOne(Tally(es), rows[i]);
        assert false;
      }
    }
  }

  lemma CountAtLeastTwo<T>(s: seq<T>, i: int, j: int)
    requires 0 <= i < j < |s| && s[i] == s[j]
    ensures multiset(s)[s[i]] >= 2
  {
    assert s == s[..i] + [s[i]] + s[i + 1..j] + [s[j]] + s[j + 1..];
  }

  lemma {:induction false} DistinctCountAtMostOne<K>(rows: seq<Row<K>>, x: Row<K>)
    requires DistinctKeys(rows)
    ensures multiset(rows)[x] <= 1
  {
    if rows != [] {
      assert rows == [rows[0]] + rows[1..];
      DistinctCountAtMostOne(rows[1..], x);
      if x == rows[0] {
        assert x !in rows[1..] by {
          forall m | 0 <= m < |rows[1..]| ensures rows[1..][m] != x {
            assert rows[1..][m] == rows[m + 1];
          }
        }
      }
    }
  }

  /** Two permutations of each other have the same keys. */
  lemma MultisetSameKeys<K>(a: seq<Row<K>>, b: seq<Row<K>>)
    requires multiset(a) == multiset(b)
    ensures RowKeys(a) == RowKeys(b)
  {
    forall k | k in RowKeys(a) ensures k in RowKeys(b) {
      var i :| 0 <= i < |a| && a[i].key == k;
      assert a[i] in multiset(b);
      var j :| 0 <= j < |b| && b[j] == a[i];
    }
    forall k | k in RowKeys(b) ensures k in RowKeys(a) {
      var i :| 0 <= i < |b| && b[i].key == k;
      assert b[i] in multiset(a);
      var j :| 0 <= j < |a| && a[j] == b[i];
    }
  }

  /** Rows with distinct keys have as many keys as rows. */
  lemma {:induction false} DistinctKeysCount<K>(rows: seq<Row<K>>)
    requires DistinctKeys(rows)
    ensures |RowKeys(rows)| == |rows|
  {
    if rows != [] {
      assert rows == [rows[0]] + rows[1..];
      assert DistinctKeys(rows[1..]);
      DistinctKeysCount(rows[1..]);
      RowKeysCons(rows[0], rows[1..]);
      assert rows[0].key !in RowKeys(rows[1..]) by {
        forall m | 0 <= m < |rows[1..]| ensures rows[1..][m].key != rows[0].key {
          assert rows[1..][m] == rows[m + 1];
        }
      }
    }
  }

  lemma SubsetCount<T>(a: set<T>, b: set<T>)
    requires a <= b
    ensures |a| <= |b|
  {
    assert b == a + (b - a);
  }

  /** The groups other than `k0`'s that sold at least as many units. */
  function Outranking<K>(es: seq<Entry<K>>, k0: K): set<K> {
    set k | k in EntryKeys(es) && k != k0 && QtyOf(es, k) >= QtyOf(es, k0)
  }

  /** Ranked by units sold, the groups ahead of position `j` outrank the group
      at `j`: there are `n` of them for any `n <= j`. */
  lemma PrefixOutranks<K>(es: seq<Entry<K>>, ranked: seq<Row<K>>, n: int, j: int)
    requires multiset(ranked) == multiset(Tally(es))
    requires SortedDesc(ranked, ByCantidad)
    requires 0 <= n <= j < |ranked|
    ensures |Outranking(es, ranked[j].key)| >= n
  {
    TallyCorrect(es);
    PermutedTallyDistinct(es, ranked);
    MultisetSameKeys(Tally(es), ranked);
    var taken := ranked[..n];
    assert ranked[j] in multiset(Tally(es));
    forall k | k in RowKeys(taken) ensures k in Outranking(es, ranked[j].key) {
      var i :| 0 <= i < n && taken[i].key == k;
      assert ranked[i] in multiset(Tally(es));
      assert ranked[i].key != ranked[j].key;
      assert ranked[i].key in RowKeys(ranked);
    }
    assert DistinctKeys(taken);
    DistinctKeysCount(taken);
    SubsetCount(RowKeys(taken), Outranking(es, ranked[j].key));
  }
}
