/**
 * The local cart held by the cart context (src/context/CartContext.js): a list of
 * lines, each the product record spread with a `cantidad`, kept in a state cell that
 * `addToCart` and `removeFromCart` replace through pure updaters.
 */
module CartContext {
  import opened Wrappers
  import opened ProductCard

  /** `{...product, cantidad}`; the line's `id` is the product's own `id` field. */
  datatype LocalLine = LocalLine(product: RawProduct, cantidad: int)

  predicate HasId(items: seq<LocalLine>, id: Option<int>) {
    exists i :: 0 <= i < |items| && items[i].product.id == id
  }

  /** No two lines share an `id`. */
  predicate UniqueIds(items: seq<LocalLine>) {
    forall i, j :: 0 <= i < j < |items| ==> items[i].product.id != items[j].product.id
  }

  /** Every line holds at least one unit. */
  predicate AllPositive(items: seq<LocalLine>) {
    forall i :: 0 <= i < |items| ==> items[i].cantidad >= 1
  }

  /** The number of lines carrying `id`. */
  function CountOf(items: seq<LocalLine>, id: Option<int>): (r: nat)
    ensures r == 0 <==> !HasId(items, id)
  {
    if items == [] then 0
    else
      var init := items[..|items| - 1];
      assert forall i :: 0 <= i < |init| ==> init[i] == items[i];
      CountOf(init, id) + if items[|items| - 1].product.id == id then 1 else 0
  }

  /** The units held for `id`: the sum of `cantidad` over the lines carrying it. */
  function QuantityOf(items: seq<LocalLine>, id: Option<int>): int {
    if items == [] then 0
    else QuantityOf(items[..|items| - 1], id) + if items[|items| - 1].product.id == id then items[|items| - 1].cantidad else 0
  }

  /** Every line carrying the id gains one unit; the other lines are kept, in place. */
  function Increment(items: seq<LocalLine>, id: Option<int>): (r: seq<LocalLine>)
    ensures |r| == |items|
    ensures forall i :: 0 <= i < |items| ==>
      r[i] == if items[i].product.id == id then items[i].(cantidad := items[i].cantidad + 1) else items[i]
  {
    seq(|items|, i requires 0 <= i < |items| =>
      if items[i].product.id == id then items[i].(cantidad := items[i].cantidad + 1) else items[i])
  }

  /** The `addToCart` updater. */
  function AddToCartUpdate(items: seq<LocalLine>, p: RawProduct): (r: seq<LocalLine>)
    ensures HasId(items, p.id) ==>
      && |r| == |items|
      && forall i :: 0 <= i < |items| ==>
           r[i] == if items[i].product.id == p.id then items[i].(cantidad := items[i].cantidad + 1) else items[i]
    ensures !HasId(items, p.id) ==> r == items + [LocalLine(p, 1)]
    ensures HasId(r, p.id)
  {
    if HasId(items, p.id) then
      var i :| 0 <= i < |items| && items[i].product.id == p.id;
      assert Increment(items, p.id)[i].product.id == p.id;
      Increment(items, p.id)
    else
      assert (items + [LocalLine(p, 1)])[|items|].product.id == p.id;
      items + [LocalLine(p, 1)]
  }

  /** The `removeFromCart` updater: the lines whose product id differs from `id`, in their order. */
  function RemoveFromCartUpdate(items: seq<LocalLine>, id: Option<int>): (r: seq<LocalLine>)
    ensures |r| <= |items|
    ensures !HasId(r, id)
    ensures forall i :: 0 <= i < |r| ==> r[i] in items
    ensures forall i :: 0 <= i < |items| && items[i].product.id != id ==> items[i] in r
    ensures !HasId(items, id) ==> r == items
  {
    if items == [] then []
    else
      var rest := RemoveFromCartUpdate(items[1..], id);
      assert forall i :: 1 <= i < |items| ==> items[i] == items[1..][i - 1];
      if items[0].product.id == id then rest else [items[0]] + rest
  }

  /** Filtering distributes over concatenation, so the kept lines stay in their order. */
  lemma {:induction false} RemoveAppend(a: seq<LocalLine>, b: seq<LocalLine>, id: Option<int>)
    ensures RemoveFromCartUpdate(a + b, id) == RemoveFromCartUpdate(a, id) + RemoveFromCartUpdate(b, id)
  {
    if a == [] {
      assert a + b == b;
    } else {
      assert (a + b)[1..] == a[1..] + b;
      RemoveAppend(a[1..], b, id);
    }
  }

  /** With unique ids, no line other than line `k` carries its id. */
  lemma UniqueElsewhere(items: seq<LocalLine>, k: nat)
    requires UniqueIds(items) && k < |items|
    ensures !HasId(items[..k], items[k].product.id)
    ensures !HasId(items[k + 1..], items[k].product.id)
  {
    var a, c := items[..k], items[k + 1..];
    forall i | 0 <= i < |a| ensures a[i].product.id != items[k].product.id {
      assert a[i] == items[i];
    }
    forall i | 0 <= i < |c| ensures c[i].product.id != items[k].product.id {
      assert c[i] == items[k + 1 + i];
    }
  }

  /** Removing an id carried only by the middle line of `a + [x] + c` leaves `a + c`. */
  lemma RemoveMiddleLine(a: seq<LocalLine>, x: LocalLine, c: seq<LocalLine>)
    requires !HasId(a, x.product.id) && !HasId(c, x.product.id)
    ensures RemoveFromCartUpdate(a + [x] + c, x.product.id) == a + c
  {
    var id := x.product.id;
    assert a + [x] + c == a + ([x] + c);
    RemoveAppend(a, [x] + c, id);
    RemoveAppend([x], c, id);
    assert RemoveFromCartUpdate([x], id) == [];
  }

  /** With unique ids, removing the id of line `k` removes exactly that line. */
  lemma RemoveUniqueLine(items: seq<LocalLine>, k: nat)
    requires UniqueIds(items) && k < |items|
    ensures RemoveFromCartUpdate(items, items[k].product.id) == items[..k] + items[k + 1..]
  {
    UniqueElsewhere(items, k);
    assert items == items[..k] + [items[k]] + items[k + 1..];
    RemoveMiddleLine(items[..k], items[k], items[k + 1..]);
  }

  lemma AddPreservesUniqueIds(items: seq<LocalLine>, p: RawProduct)
    requires UniqueIds(items)
    ensures UniqueIds(AddToCartUpdate(items, p))
  {
  }

  lemma AddPreservesPositive(items: seq<LocalLine>, p: RawProduct)
    requires AllPositive(items)
    ensures AllPositive(AddToCartUpdate(items, p))
  {
  }

  lemma {:induction false} RemovePreservesUniqueIds(items: seq<LocalLine>, id: Option<int>)
    requires UniqueIds(items)
    ensures UniqueIds(RemoveFromCartUpdate(items, id))
  {
    if items != [] {
      var tail := items[1..];
      assert UniqueIds(tail) by {
        forall i, j | 0 <= i < j < |tail| ensures tail[i].product.id != tail[j].product.id {
          assert tail[i] == items[i + 1] && tail[j] == items[j + 1];
        }
      }
      RemovePreservesUniqueIds(tail, id);
      var rest := RemoveFromCartUpdate(tail, id);
      if items[0].product.id != id {
        forall i | 0 <= i < |rest| ensures rest[i].product.id != items[0].product.id {
          var j :| 0 <= j < |tail| && tail[j] == rest[i];
          assert tail[j] == items[j + 1];
        }
        assert RemoveFromCartUpdate(items, id) == [items[0]] + rest;
      }
    }
  }

  lemma RemovePreservesPositive(items: seq<LocalLine>, id: Option<int>)
    requires AllPositive(items)
    ensures AllPositive(RemoveFromCartUpdate(items, id))
  {
    var r := RemoveFromCartUpdate(items, id);
    forall i | 0 <= i < |r| ensures r[i].cantidad >= 1 {
      var j :| 0 <= j < |items| && items[j] == r[i];
    }
  }

  lemma {:induction false} UniqueCountIsOne(items: seq<LocalLine>, id: Option<int>)
    requires UniqueIds(items) && HasId(items, id)
    ensures CountOf(items, id) == 1
  {
    var init := items[..|items| - 1];
    assert forall i :: 0 <= i < |init| ==> init[i] == items[i];
    if items[|items| - 1].product.id == id {
      assert !HasId(init, id);
    } else {
      assert HasId(init, id);
      UniqueCountIsOne(init, id);
    }
  }

  /** Adding one unit of `id` on every line carrying it raises the units held by the number of such lines. */
  lemma {:induction false} IncrementQuantityOf(a: seq<LocalLine>, id: Option<int>, q: Option<int>)
    ensures QuantityOf(Increment(a, id), q) == QuantityOf(a, q) + if q == id then CountOf(a, id) else 0
  {
    if a != [] {
      var b := Increment(a, id);
      var n := |a|;
      assert b[..n - 1] == Increment(a[..n - 1], id);
      IncrementQuantityOf(a[..n - 1], id, q);
    }
  }

  lemma QuantityOfAppendOne(items: seq<LocalLine>, x: LocalLine, q: Option<int>)
    ensures QuantityOf(items + [x], q) == QuantityOf(items, q) + if x.product.id == q then x.cantidad else 0
  {
    assert (items + [x])[..|items|] == items;
  }

  /** `addToCart(p)` on a cart with unique ids adds exactly one unit of `p.id` and changes no other id. */
  lemma AddToCartQuantities(items: seq<LocalLine>, p: RawProduct)
    requires UniqueIds(items)
    ensures QuantityOf(AddToCartUpdate(items, p), p.id) == QuantityOf(items, p.id) + 1
    ensures forall q :: q != p.id ==> QuantityOf(AddToCartUpdate(items, p), q) == QuantityOf(items, q)
  {
    if HasId(items, p.id) {
      UniqueCountIsOne(items, p.id);
      IncrementQuantityOf(items, p.id, p.id);
      forall q | q != p.id ensures QuantityOf(AddToCartUpdate(items, p), q) == QuantityOf(items, q) {
        IncrementQuantityOf(items, p.id, q);
      }
    } else {
      QuantityOfAppendOne(items, LocalLine(p, 1), p.id);
      forall q | q != p.id ensures QuantityOf(AddToCartUpdate(items, p), q) == QuantityOf(items, q) {
        QuantityOfAppendOne(items, LocalLine(p, 1), q);
      }
    }
  }

  /** `n` successive calls of `addToCart(p)`. */
  function AddTimes(items: seq<LocalLine>, p: RawProduct, n: nat): (r: seq<LocalLine>)
    ensures |r| >= |items|
    ensures n > 0 ==> HasId(r, p.id)
  {
    if n == 0 then items else AddToCartUpdate(AddTimes(items, p, n - 1), p)
  }

  /** `n` calls of `addToCart(p)` keep the ids unique. */
  lemma {:induction false} AddTimesPreservesUniqueIds(items: seq<LocalLine>, p: RawProduct, n: nat)
    requires UniqueIds(items)
    ensures UniqueIds(AddTimes(items, p, n))
  {
    if n > 0 {
      AddTimesPreservesUniqueIds(items, p, n - 1);
      AddPreservesUniqueIds(AddTimes(items, p, n - 1), p);
    }
  }

  /** `n` calls of `addToCart(p)` keep the ids unique and add exactly `n` units of `p.id`, nothing else. */
  lemma {:induction false} AddTimesQuantities(items: seq<LocalLine>, p: RawProduct, n: nat)
    requires UniqueIds(items)
    ensures UniqueIds(AddTimes(items, p, n))
    ensures QuantityOf(AddTimes(items, p, n), p.id) == QuantityOf(items, p.id) + n
    ensures forall q :: q != p.id ==> QuantityOf(AddTimes(items, p, n), q) == QuantityOf(items, q)
  {
    if n > 0 {
      AddTimesQuantities(items, p, n - 1);
      AddTimesPreservesUniqueIds(items, p, n);
      AddToCartQuantities(AddTimes(items, p, n - 1), p);
    }
  }

  /** From the initial empty cart, `n >= 1` calls of `addToCart(p)` give the single line `{...p, cantidad: n}`. */
  lemma {:induction false} AddTimesFromEmpty(p: RawProduct, n: nat)
    requires n >= 1
    ensures AddTimes([], p, n) == [LocalLine(p, n)]
  {
    if n > 1 {
      AddTimesFromEmpty(p, n - 1);
      var single := [LocalLine(p, n - 1)];
      assert single[0].product.id == p.id;
      assert HasId(single, p.id);
      assert Increment([LocalLine(p, n - 1)], p.id)[0] == LocalLine(p, n);
    }
  }

  /** The context's state cell `cartItems`. */
  class CartProvider {
    var cartItems: seq<LocalLine>

    /** The invariant both updaters keep. */
    ghost predicate Valid()
      reads this
    {
      UniqueIds(cartItems) && AllPositive(cartItems)
    }

    constructor ()
      ensures cartItems == [] && Valid()
    {
      cartItems := [];
    }

    method AddToCart(product: RawProduct)
      modifies this
      ensures cartItems == AddToCartUpdate(old(cartItems), product)
      ensures old(Valid()) ==> Valid()
    {
      ghost var before := cartItems;
      cartItems := AddToCartUpdate(cartItems, product);
      if UniqueIds(before) && AllPositive(before) {
        AddPreservesUniqueIds(before, product);
        AddPreservesPositive(before, product);
      }
    }

    method RemoveFromCart(productId: Option<int>)
      modifies this
      ensures cartItems == RemoveFromCartUpdate(old(cartItems), productId)
      ensures old(Valid()) ==> Valid()
    {
      ghost var before := cartItems;
      cartItems := RemoveFromCartUpdate(cartItems, productId);
      if UniqueIds(before) && AllPositive(before) {
        RemovePreservesUniqueIds(before, productId);
        RemovePreservesPositive(before, productId);
      }
    }
  }
}
