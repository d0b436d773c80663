/**
 * The cart page's projection of the local cart (src/pages/Cart.js): the empty-cart
 * branch, one row per line with its subtotal, the item count and the total. Both
 * totals are `reduce` folds from the left, written here as recursion on the last line.
 *
 * As written, the page multiplies the raw `item.precio`; a line whose product has no
 * `precio` turns its subtotal and the total into NaN (`TotalAsWritten`), and the rendered
 * page (`RenderCart`) shows exactly that. The corrected total prices a line with the same
 * fallback the product pages display, `precio ?? price ?? 0` (`UnitPrice`, `Total`), and
 * is what the cart's other properties are stated about.
 */
module CartPage {
  import opened Wrappers
  import opened ProductCard
  import opened CartContext

  /** A JavaScript number as far as the as-written total needs it: an amount in cents, or NaN. */
  datatype Num = Finite(n: int) | NaN

  /** JavaScript `+` on the modelled numbers: NaN on either side gives NaN. */
  function Plus(a: Num, b: Num): Num {
    if a.Finite? && b.Finite? then Finite(a.n + b.n) else NaN
  }

  /** `Number(item.precio)`, the unit price a row shows: NaN when `precio` is missing. */
  function RawUnitPrice(line: LocalLine): (r: Num)
    ensures r == NaN <==> line.product.precio.None?
    ensures r.Finite? ==> r.n == line.product.precio.value
  {
    if line.product.precio.Some? then Finite(line.product.precio.value) else NaN
  }

  /** The line's subtotal as the page computes it from the raw `precio`: NaN when `precio` is missing. */
  function RawSubtotal(line: LocalLine): (r: Num)
    ensures r == NaN <==> line.product.precio.None?
    ensures r.Finite? ==> r.n == line.product.precio.value * line.cantidad
  {
    if line.product.precio.Some? then Finite(line.product.precio.value * line.cantidad) else NaN
  }

  /** The source's total, as written. */
  function TotalAsWritten(items: seq<LocalLine>): (r: Num)
    ensures r == NaN <==> exists k :: 0 <= k < |items| && items[k].product.precio.None?
  {
    if items == [] then Finite(0)
    else
      var init := items[..|items| - 1];
      assert forall k :: 0 <= k < |init| ==> init[k] == items[k];
      Plus(TotalAsWritten(init), RawSubtotal(items[|items| - 1]))
  }

  /** One line without `precio` makes the whole total NaN. */
  lemma {:induction false} MissingPrecioMakesTotalNaN(items: seq<LocalLine>, k: nat)
    requires k < |items| && items[k].product.precio.None?
    ensures TotalAsWritten(items) == NaN
  {
    var n := |items|;
    if k < n - 1 {
      var init := items[..n - 1];
      assert init[k] == items[k];
      MissingPrecioMakesTotalNaN(init, k);
    }
  }

  /**
   * A product that carries only `price`: the detail page shows its price, yet once it is
   * in the cart the cart total is NaN.
   */
  lemma PriceOnlyProductBreaksTotal(p: RawProduct)
    requires p.precio.None? && p.price.Some?
    ensures DisplayPrice(p) == p.price.value
    ensures TotalAsWritten(AddToCartUpdate([], p)) == NaN
  {
    MissingPrecioMakesTotalNaN(AddToCartUpdate([], p), 0);
  }

  /** The price of one unit, with the fallback of the product pages. */
  function UnitPrice(line: LocalLine): (r: int)
    ensures line.product.precio.Some? ==> r == line.product.precio.value
    ensures line.product.precio.None? && line.product.price.Some? ==> r == line.product.price.value
    ensures line.product.precio.None? && line.product.price.None? ==> r == 0
  {
    DisplayPrice(line.product)
  }

  /** The per-line subtotal `cantidad * precio`. */
  function Subtotal(line: LocalLine): (r: int)
    ensures line.product.precio.Some? ==> RawSubtotal(line) == Finite(r)
    ensures line.product.precio.None? && line.product.price.Some? ==> r == line.cantidad * line.product.price.value
    ensures line.product.precio.None? && line.product.price.None? ==> r == 0
  {
    line.cantidad * UnitPrice(line)
  }

  /** The total: the sum over lines of the unit price times the quantity. */
  function Total(items: seq<LocalLine>): (r: int)
    ensures (forall i :: 0 <= i < |items| ==> items[i].cantidad >= 0 && UnitPrice(items[i]) >= 0) ==> r >= 0
  {
    if items == [] then 0
    else
      var init := items[..|items| - 1];
      assert forall i :: 0 <= i < |init| ==> init[i] == items[i];
      Total(init) + Subtotal(items[|items| - 1])
  }

  /** The number of units in the cart, the sum of the line quantities; the navigation badge shows the same count. */
  function ItemCount(items: seq<LocalLine>): int {
    if items == [] then 0 else ItemCount(items[..|items| - 1]) + items[|items| - 1].cantidad
  }

  /** With every quantity at least 1, the cart holds at least as many units as lines. */
  lemma {:induction false} ItemCountAtLeastLines(items: seq<LocalLine>)
    requires AllPositive(items)
    ensures ItemCount(items) >= |items|
  {
    if items != [] {
      var init := items[..|items| - 1];
      assert forall i :: 0 <= i < |init| ==> init[i] == items[i];
      ItemCountAtLeastLines(init);
    }
  }

  /** Where every line has `precio`, the as-written total and the corrected one agree. */
  lemma {:induction false} TotalAsWrittenAgrees(items: seq<LocalLine>)
    requires forall i :: 0 <= i < |items| ==> items[i].product.precio.Some?
    ensures TotalAsWritten(items) == Finite(Total(items))
  {
    if items != [] {
      var init := items[..|items| - 1];
      assert forall i :: 0 <= i < |init| ==> init[i] == items[i];
      TotalAsWrittenAgrees(init);
    }
  }

  lemma {:induction false} TotalAppend(a: seq<LocalLine>, b: seq<LocalLine>)
    ensures Total(a + b) == Total(a) + Total(b)
  {
    if b == [] {
      assert a + b == a;
    } else {
      assert (a + b)[..|a + b| - 1] == a + b[..|b| - 1];
      TotalAppend(a, b[..|b| - 1]);
    }
  }

  lemma {:induction false} ItemCountAppend(a: seq<LocalLine>, b: seq<LocalLine>)
    ensures ItemCount(a + b) == ItemCount(a) + ItemCount(b)
  {
    if b == [] {
      assert a + b == a;
    } else {
      assert (a + b)[..|a + b| - 1] == a + b[..|b| - 1];
      ItemCountAppend(a, b[..|b| - 1]);
    }
  }

  lemma SplitTotals(a: seq<LocalLine>, x: LocalLine, c: seq<LocalLine>)
    ensures Total(a + [x] + c) == Total(a) + Subtotal(x) + Total(c)
    ensures ItemCount(a + [x] + c) == ItemCount(a) + x.cantidad + ItemCount(c)
  {
    TotalAppend(a + [x], c);
    TotalAppend(a, [x]);
    ItemCountAppend(a + [x], c);
    ItemCountAppend(a, [x]);
    assert [x][..0] == [];
  }

  /** A list is its prefix, its k-th element and its suffix. */
  lemma SplitAt<T>(s: seq<T>, k: nat)
    requires k < |s|
    ensures s == s[..k] + [s[k]] + s[k + 1..]
  {
  }

  /** Dropping line k from a list lowers the total by its subtotal and the count by its quantity. */
  lemma DropLineTotals(items: seq<LocalLine>, k: nat)
    requires k < |items|
    ensures Total(items[..k] + items[k + 1..]) == Total(items) - Subtotal(items[k])
    ensures ItemCount(items[..k] + items[k + 1..]) == ItemCount(items) - items[k].cantidad
  {
    var a, x, c := items[..k], items[k], items[k + 1..];
    SplitAt(items, k);
    SplitTotals(a, x, c);
    TotalAppend(a, c);
    ItemCountAppend(a, c);
  }

  /** Removing the line of a unique id lowers the total by its subtotal and the count by its quantity. */
  lemma RemoveLowersTotals(items: seq<LocalLine>, k: nat)
    requires UniqueIds(items) && k < |items|
    ensures Total(RemoveFromCartUpdate(items, items[k].product.id)) == Total(items) - Subtotal(items[k])
    ensures ItemCount(RemoveFromCartUpdate(items, items[k].product.id)) == ItemCount(items) - items[k].cantidad
  {
    RemoveUniqueLine(items, k);
    DropLineTotals(items, k);
  }

  lemma {:induction false} IncrementItemCount(a: seq<LocalLine>, id: Option<int>)
    ensures ItemCount(Increment(a, id)) == ItemCount(a) + CountOf(a, id)
  {
    if a != [] {
      var n := |a|;
      assert Increment(a, id)[..n - 1] == Increment(a[..n - 1], id);
      IncrementItemCount(a[..n - 1], id);
    }
  }

  /** Each `addToCart` on a cart with unique ids raises the item count by exactly one. */
  lemma AddToCartRaisesItemCount(items: seq<LocalLine>, p: RawProduct)
    requires UniqueIds(items)
    ensures ItemCount(AddToCartUpdate(items, p)) == ItemCount(items) + 1
  {
    if HasId(items, p.id) {
      UniqueCountIsOne(items, p.id);
      IncrementItemCount(items, p.id);
    } else {
      assert (items + [LocalLine(p, 1)])[..|items|] == items;
    }
  }

  /** `n` calls of `addToCart` raise the item count by `n`. */
  lemma {:induction false} AddTimesRaisesItemCount(items: seq<LocalLine>, p: RawProduct, n: nat)
    requires UniqueIds(items)
    ensures ItemCount(AddTimes(items, p, n)) == ItemCount(items) + n
  {
    if n > 0 {
      AddTimesRaisesItemCount(items, p, n - 1);
      AddTimesPreservesUniqueIds(items, p, n - 1);
      AddToCartRaisesItemCount(AddTimes(items, p, n - 1), p);
    }
  }

  /** The as-written total is additive over concatenation; NaN on either side gives NaN. */
  lemma {:induction false} TotalAsWrittenAppend(a: seq<LocalLine>, b: seq<LocalLine>)
    ensures TotalAsWritten(a + b) == Plus(TotalAsWritten(a), TotalAsWritten(b))
  {
    if b == [] {
      assert a + b == a;
    } else {
      assert (a + b)[..|a + b| - 1] == a + b[..|b| - 1];
      TotalAsWrittenAppend(a, b[..|b| - 1]);
    }
  }

  const RowPlaceholder: string := "https://via.placeholder.com/100"

  /**
   * One rendered line as the page shows it: the raw `item.nombre`, the image, the raw unit
   * price, the quantity, the raw subtotal and the key its delete button removes.
   */
  datatype Row = Row(name: Option<string>, image: string, unitPrice: Num, cantidad: int, subtotal: Num, removeKey: Option<int>)

  datatype CartView = EmptyCart | Filled(rows: seq<Row>, itemCount: int, total: Num)

  /**
   * One row of the markup: the raw `nombre`; the image `imagen_url || placeholder`, which
   * unlike the product pages does not fall back to `image`; the raw unit price and subtotal.
   */
  function RowOf(line: LocalLine): (r: Row)
    ensures r.name == line.product.nombre
    ensures Truthy(line.product.imagenUrl) ==> r.image == line.product.imagenUrl.value
    ensures !Truthy(line.product.imagenUrl) ==> r.image == RowPlaceholder
    ensures r.unitPrice == RawUnitPrice(line) && r.subtotal == RawSubtotal(line)
    ensures r.cantidad == line.cantidad && r.removeKey == line.product.id
  {
    Row(line.product.nombre,
        if Truthy(line.product.imagenUrl) then line.product.imagenUrl.value else RowPlaceholder,
        RawUnitPrice(line), line.cantidad, RawSubtotal(line), line.product.id)
  }

  /** The sum of the subtotals the rows display. */
  function SumOfRows(rows: seq<Row>): Num {
    if rows == [] then Finite(0) else Plus(rows[0].subtotal, SumOfRows(rows[1..]))
  }

  /** The summary total agrees with the subtotals shown on the rows, NaN included. */
  lemma {:induction false} TotalIsSumOfRowSubtotals(items: seq<LocalLine>)
    ensures TotalAsWritten(items) == SumOfRows(seq(|items|, i requires 0 <= i < |items| => RowOf(items[i])))
  {
    if items != [] {
      var rows := seq(|items|, i requires 0 <= i < |items| => RowOf(items[i]));
      var tail := items[1..];
      assert rows[1..] == seq(|tail|, i requires 0 <= i < |tail| => RowOf(tail[i]));
      TotalIsSumOfRowSubtotals(tail);
      assert items == [items[0]] + tail;
      TotalAsWrittenAppend([items[0]], tail);
      assert [items[0]][..0] == [];
    }
  }

  /**
   * The page as written: the empty-cart branch exactly when there is no line, otherwise
   * rows with the raw prices and a summary with the item count and the raw total.
   */
  function RenderCart(items: seq<LocalLine>): (v: CartView)
    ensures v == EmptyCart <==> |items| == 0
    ensures v.Filled? ==>
      && |v.rows| == |items|
      && (forall i :: 0 <= i < |items| ==>
            && v.rows[i] == RowOf(items[i])
            && v.rows[i].cantidad == items[i].cantidad && v.rows[i].unitPrice == RawUnitPrice(items[i])
            && v.rows[i].subtotal == RawSubtotal(items[i])
            && v.rows[i].removeKey == items[i].product.id)
      && v.itemCount == ItemCount(items)
      && v.total == TotalAsWritten(items)
      && v.total == SumOfRows(v.rows)
  {
    if |items| == 0 then EmptyCart
    else
      var rows := seq(|items|, i requires 0 <= i < |items| => RowOf(items[i]));
      TotalIsSumOfRowSubtotals(items);
      Filled(rows, ItemCount(items), TotalAsWritten(items))
  }

  /**
   * What the summary shows: the corrected total when every line has `precio`, and NaN as
   * soon as one line lacks it, however the product pages price that product.
   */
  lemma RenderCartTotals(items: seq<LocalLine>)
    requires |items| > 0
    ensures (forall i :: 0 <= i < |items| ==> items[i].product.precio.Some?) ==>
      RenderCart(items).total == Finite(Total(items))
    ensures (exists k :: 0 <= k < |items| && items[k].product.precio.None?) ==>
      RenderCart(items).total == NaN
  {
    if forall i :: 0 <= i < |items| ==> items[i].product.precio.Some? {
      TotalAsWrittenAgrees(items);
    } else {
      var k :| 0 <= k < |items| && items[k].product.precio.None?;
      MissingPrecioMakesTotalNaN(items, k);
    }
  }
}
