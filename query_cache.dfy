/**
 * The cart entry of the query cache and the optimistic cart mutations built on it
 * (src/hooks/useQueries.js).
 *
 * The cached `['cart']` value is the server's cart object `{items: [...], ...}`, or
 * nothing before the first fetch. Each mutation snapshots the entry, patches it with a
 * pure updater, and on a failed server call restores the snapshot. The server's answer
 * is a parameter; cancellation, refetching and the library's own scheduling are not
 * modelled, and invalidation is a "stale" flag.
 */
module QueryCache {
  import opened Wrappers

  /** One line of the server cart: `{id, producto_id, cantidad, ...}`. */
  datatype ServerLine = ServerLine(id: int, productoId: int, cantidad: int, fields: map<string, string>)

  /** The cart object; `items` may be missing, and the other fields are kept by every patch. */
  datatype CartData = CartData(items: Option<seq<ServerLine>>, fields: map<string, string>)

  /** The empty cart the add updater installs when nothing was cached. */
  const BlankCart: CartData := CartData(Some([]), map[])

  /** The lines of a cart, a missing `items` counting as none (`old.items || []`). */
  function Lines(c: CartData): seq<ServerLine> {
    c.items.GetOr([])
  }

  predicate HasProduct(items: seq<ServerLine>, productId: int) {
    exists i :: 0 <= i < |items| && items[i].productoId == productId
  }

  predicate HasLine(items: seq<ServerLine>, itemId: int) {
    exists i :: 0 <= i < |items| && items[i].id == itemId
  }

  predicate AllPositive(items: seq<ServerLine>) {
    forall i :: 0 <= i < |items| ==> items[i].cantidad >= 1
  }

  /** Every line of the product gains `quantity`; the other lines are kept as they are, in place. */
  function AddQuantity(items: seq<ServerLine>, productId: int, quantity: int): (r: seq<ServerLine>)
    ensures |r| == |items|
    ensures forall i :: 0 <= i < |items| ==>
      r[i] == if items[i].productoId == productId then items[i].(cantidad := items[i].cantidad + quantity) else items[i]
  {
    if items == [] then []
    else
      var head := if items[0].productoId == productId then items[0].(cantidad := items[0].cantidad + quantity) else items[0];
      [head] + AddQuantity(items[1..], productId, quantity)
  }

  /** Every line carrying the item id gets the new quantity; the other lines are kept, in place. */
  function SetQuantity(items: seq<ServerLine>, itemId: int, quantity: int): (r: seq<ServerLine>)
    ensures |r| == |items|
    ensures forall i :: 0 <= i < |items| ==>
      r[i] == if items[i].id == itemId then items[i].(cantidad := quantity) else items[i]
  {
    if items == [] then []
    else
      var head := if items[0].id == itemId then items[0].(cantidad := quantity) else items[0];
      [head] + SetQuantity(items[1..], itemId, quantity)
  }

  /** The lines whose id differs from the removed one, in their original order. */
  function WithoutLine(items: seq<ServerLine>, itemId: int): (r: seq<ServerLine>)
    ensures |r| <= |items|
    ensures !HasLine(r, itemId)
    ensures forall i :: 0 <= i < |r| ==> r[i] in items
    ensures forall i :: 0 <= i < |items| && items[i].id != itemId ==> items[i] in r
    ensures !HasLine(items, itemId) ==> r == items
  {
    if items == [] then []
    else
      var rest := WithoutLine(items[1..], itemId);
      assert forall i :: 1 <= i < |items| ==> items[i] == items[1..][i - 1];
      if items[0].id == itemId then rest else [items[0]] + rest
  }

  /** Filtering distributes over concatenation, so the kept lines stay in their order. */
  lemma {:induction false} WithoutLineAppend(a: seq<ServerLine>, b: seq<ServerLine>, itemId: int)
    ensures WithoutLine(a + b, itemId) == WithoutLine(a, itemId) + WithoutLine(b, itemId)
  {
    if a == [] {
      assert a + b == b;
    } else {
      assert (a + b)[1..] == a[1..] + b;
      WithoutLineAppend(a[1..], b, itemId);
    }
  }

  /** The add updater (useAddToCart's `setQueryData` callback), with `now` as the temporary id. */
  function AddPatch(cached: Option<CartData>, productId: int, quantity: int, now: int): (r: Option<CartData>)
    ensures r.Some? && r.value.items.Some?
    ensures cached.None? ==> r == Some(BlankCart)
    ensures cached.Some? ==> r.value.fields == cached.value.fields
    ensures cached.Some? && HasProduct(Lines(cached.value), productId) ==>
      var before, after := Lines(cached.value), r.value.items.value;
      && |after| == |before|
      && forall i :: 0 <= i < |before| ==>
           after[i] == if before[i].productoId == productId
                       then before[i].(cantidad := before[i].cantidad + quantity) else before[i]
    ensures cached.Some? && !HasProduct(Lines(cached.value), productId) ==>
      r.value.items.value == Lines(cached.value) + [ServerLine(now, productId, quantity, map[])]
  {
    if cached.None? then Some(BlankCart)
    else
      var items := Lines(cached.value);
      if HasProduct(items, productId) then
        Some(cached.value.(items := Some(AddQuantity(items, productId, quantity))))
      else
        Some(cached.value.(items := Some(items + [ServerLine(now, productId, quantity, map[])])))
  }

  /**
   * What an updater does to the entry: a new value, or a TypeError when it reads
   * `old.items.map` / `old.items.filter` on a cart without `items`.
   */
  datatype PatchResult = Patched(value: Option<CartData>) | Threw

  /** The update updater (useUpdateCartItem). No lower bound is checked on `quantity`. */
  function UpdatePatch(cached: Option<CartData>, itemId: int, quantity: int): (r: PatchResult)
    ensures cached.None? ==> r == Patched(None)
    ensures cached.Some? && cached.value.items.None? ==> r == Threw
    ensures cached.Some? && cached.value.items.Some? ==>
      var before := cached.value.items.value;
      && r.Patched? && r.value.Some? && r.value.value.fields == cached.value.fields
      && r.value.value.items.Some? && |r.value.value.items.value| == |before|
      && forall i :: 0 <= i < |before| ==>
           r.value.value.items.value[i] == if before[i].id == itemId then before[i].(cantidad := quantity) else before[i]
  {
    if cached.None? then Patched(cached)
    else if cached.value.items.None? then Threw
    else Patched(Some(cached.value.(items := Some(SetQuantity(cached.value.items.value, itemId, quantity)))))
  }

  /** The remove updater (useRemoveFromCart). */
  function RemovePatch(cached: Option<CartData>, itemId: int): (r: PatchResult)
    ensures cached.None? ==> r == Patched(None)
    ensures cached.Some? && cached.value.items.None? ==> r == Threw
    ensures cached.Some? && cached.value.items.Some? ==>
      var before := cached.value.items.value;
      && r.Patched? && r.value.Some? && r.value.value.fields == cached.value.fields
      && r.value.value.items == Some(WithoutLine(before, itemId))
      && !HasLine(r.value.value.items.value, itemId)
      && (forall i :: 0 <= i < |before| && before[i].id != itemId ==> before[i] in r.value.value.items.value)
      && (forall x :: x in r.value.value.items.value ==> x in before)
  {
    if cached.None? then Patched(cached)
    else if cached.value.items.None? then Threw
    else Patched(Some(cached.value.(items := Some(WithoutLine(cached.value.items.value, itemId)))))
  }

  /** Removing an id that no line carries leaves the cached cart as it was. */
  lemma RemoveAbsentIsIdentity(cached: Option<CartData>, itemId: int)
    requires cached.Some? && cached.value.items.Some? && !HasLine(cached.value.items.value, itemId)
    ensures RemovePatch(cached, itemId) == Patched(cached)
  {
  }

  /** No two lines of a cart share a product id, because the add updater merges by `producto_id`. */
  predicate UniqueProducts(items: seq<ServerLine>) {
    forall i, j :: 0 <= i < j < |items| ==> items[i].productoId != items[j].productoId
  }

  /** The units of the product in the cart: the sum of `cantidad` over its lines. */
  function ProductUnits(items: seq<ServerLine>, productId: int): int {
    if items == [] then 0
    else (if items[0].productoId == productId then items[0].cantidad else 0) + ProductUnits(items[1..], productId)
  }

  /** The add updater keeps product ids unique, a never-loaded cart included. */
  lemma AddPatchPreservesUniqueProducts(cached: Option<CartData>, productId: int, quantity: int, now: int)
    requires cached.Some? ==> UniqueProducts(Lines(cached.value))
    ensures UniqueProducts(AddPatch(cached, productId, quantity, now).value.items.value)
  {
  }

  /** The add updater keeps every quantity at least 1 when the added quantity is. */
  lemma AddPatchPreservesPositive(cached: Option<CartData>, productId: int, quantity: int, now: int)
    requires cached.Some? ==> AllPositive(Lines(cached.value))
    requires quantity >= 1
    ensures AllPositive(AddPatch(cached, productId, quantity, now).value.items.value)
  {
  }

  /** The update updater leaves every `producto_id` alone, so product ids stay unique. */
  lemma UpdatePatchPreservesUniqueProducts(cached: Option<CartData>, itemId: int, quantity: int)
    requires cached.Some? && cached.value.items.Some? && UniqueProducts(cached.value.items.value)
    ensures var r := UpdatePatch(cached, itemId, quantity);
      r.Patched? && r.value.Some? && r.value.value.items.Some? && UniqueProducts(r.value.value.items.value)
  {
  }

  lemma {:induction false} WithoutLinePreservesUniqueProducts(items: seq<ServerLine>, itemId: int)
    requires UniqueProducts(items)
    ensures UniqueProducts(WithoutLine(items, itemId))
  {
    if items != [] {
      var tail := items[1..];
      assert UniqueProducts(tail) by {
        forall i, j | 0 <= i < j < |tail| ensures tail[i].productoId != tail[j].productoId {
          assert tail[i] == items[i + 1] && tail[j] == items[j + 1];
        }
      }
      WithoutLinePreservesUniqueProducts(tail, itemId);
      var rest := WithoutLine(tail, itemId);
      if items[0].id != itemId {
        forall i | 0 <= i < |rest| ensures rest[i].productoId != items[0].productoId {
          var j :| 0 <= j < |tail| && tail[j] == rest[i];
          assert tail[j] == items[j + 1];
        }
        assert WithoutLine(items, itemId) == [items[0]] + rest;
      }
    }
  }

  /** The remove updater keeps product ids unique. */
  lemma RemovePatchPreservesUniqueProducts(cached: Option<CartData>, itemId: int)
    requires cached.Some? && cached.value.items.Some? && UniqueProducts(cached.value.items.value)
    ensures var r := RemovePatch(cached, itemId);
      r.Patched? && r.value.Some? && r.value.value.items.Some? && UniqueProducts(r.value.value.items.value)
  {
    WithoutLinePreservesUniqueProducts(cached.value.items.value, itemId);
  }

  /** Adding to one product's lines leaves the units of every other product as they were. */
  lemma {:induction false} AddQuantityOtherUnits(a: seq<ServerLine>, productId: int, quantity: int, x: int)
    requires x != productId
    ensures ProductUnits(AddQuantity(a, productId, quantity), x) == ProductUnits(a, x)
  {
    if a != [] {
      assert AddQuantity(a, productId, quantity)[1..] == AddQuantity(a[1..], productId, quantity);
      AddQuantityOtherUnits(a[1..], productId, quantity, x);
    }
  }

  /** With unique product ids, adding `quantity` to the product's lines adds `quantity` units of it. */
  lemma {:induction false} AddQuantityOwnUnits(a: seq<ServerLine>, productId: int, quantity: int)
    requires UniqueProducts(a) && HasProduct(a, productId)
    ensures ProductUnits(AddQuantity(a, productId, quantity), productId) == ProductUnits(a, productId) + quantity
  {
    var tail := a[1..];
    assert AddQuantity(a, productId, quantity)[1..] == AddQuantity(tail, productId, quantity);
    assert forall i :: 0 <= i < |tail| ==> tail[i] == a[i + 1];
    if a[0].productoId == productId {
      assert AddQuantity(tail, productId, quantity) == tail;
    } else {
      assert HasProduct(tail, productId);
      AddQuantityOwnUnits(tail, productId, quantity);
    }
  }

  lemma {:induction false} ProductUnitsAppendOne(items: seq<ServerLine>, line: ServerLine, x: int)
    ensures ProductUnits(items + [line], x) == ProductUnits(items, x) + if line.productoId == x then line.cantidad else 0
  {
    if items == [] {
      assert [line][1..] == [];
    } else {
      assert (items + [line])[1..] == items[1..] + [line];
      ProductUnitsAppendOne(items[1..], line, x);
    }
  }

  /**
   * On a loaded cart with unique product ids, the add updater adds exactly `quantity` units
   * of the product and changes no other product's units. (A never-loaded cart gets
   * `{items: []}` instead, which holds no units at all.)
   */
  lemma AddPatchUnits(c: CartData, productId: int, quantity: int, now: int)
    requires UniqueProducts(Lines(c))
    ensures var after := AddPatch(Some(c), productId, quantity, now).value.items.value;
      && ProductUnits(after, productId) == ProductUnits(Lines(c), productId) + quantity
      && forall x :: x != productId ==> ProductUnits(after, x) == ProductUnits(Lines(c), x)
  {
    var before := Lines(c);
    var after := AddPatch(Some(c), productId, quantity, now).value.items.value;
    if HasProduct(before, productId) {
      assert after == AddQuantity(before, productId, quantity);
      AddQuantityOwnUnits(before, productId, quantity);
      forall x | x != productId ensures ProductUnits(after, x) == ProductUnits(before, x) {
        AddQuantityOtherUnits(before, productId, quantity, x);
      }
    } else {
      var line := ServerLine(now, productId, quantity, map[]);
      ProductUnitsAppendOne(before, line, productId);
      forall x | x != productId ensures ProductUnits(after, x) == ProductUnits(before, x) {
        ProductUnitsAppendOne(before, line, x);
      }
    }
  }

  /** The value `onMutate` returns: the entry as it was before the patch. */
  datatype MutationContext = MutationContext(previousCart: Option<CartData>)

  /** `onError`: restore the snapshot when there is a context and its snapshot is truthy. */
  function Rollback(ctx: Option<MutationContext>, current: Option<CartData>): (r: Option<CartData>)
    ensures ctx.Some? && ctx.value.previousCart.Some? ==> r == ctx.value.previousCart
    ensures ctx.None? || ctx.value.previousCart.None? ==> r == current
  {
    if ctx.Some? && ctx.value.previousCart.Some? then ctx.value.previousCart else current
  }

  /** The variables of one update mutation. */
  datatype UpdateVars = UpdateVars(itemId: int, quantity: int)

  /** useIncreaseQuantity: always asks for one more. */
  function IncreaseRequest(itemId: int, currentQuantity: int): (r: UpdateVars)
    ensures r.itemId == itemId && r.quantity == currentQuantity + 1
  {
    UpdateVars(itemId, currentQuantity + 1)
  }

  /** useDecreaseQuantity: asks for one less only above 1, otherwise issues nothing. */
  function DecreaseRequest(itemId: int, currentQuantity: int): (r: Option<UpdateVars>)
    ensures r.Some? <==> currentQuantity > 1
    ensures r.Some? ==> r.value.itemId == itemId && r.value.quantity == currentQuantity - 1 && r.value.quantity >= 1
  {
    if currentQuantity > 1 then Some(UpdateVars(itemId, currentQuantity - 1)) else None
  }

  /** Whatever quantity the decrease guard starts from, it never drives a cached line below 1. */
  lemma DecreaseKeepsQuantitiesPositive(cached: Option<CartData>, itemId: int, currentQuantity: int)
    requires cached.Some? && cached.value.items.Some? && AllPositive(cached.value.items.value)
    ensures match DecreaseRequest(itemId, currentQuantity)
      case None => true
      case Some(v) =>
        var r := UpdatePatch(cached, v.itemId, v.quantity);
        r.Patched? && r.value.Some? && r.value.value.items.Some? && AllPositive(r.value.value.items.value)
  {
  }

  /** The update path itself has no guard: asking for 0 stores a line with quantity 0. */
  lemma UpdateCanStoreZero(line: ServerLine)
    ensures var r := UpdatePatch(Some(CartData(Some([line]), map[])), line.id, 0);
      r.Patched? && r.value.Some? && r.value.value.items == Some([line.(cantidad := 0)])
  {
    var r := UpdatePatch(Some(CartData(Some([line]), map[])), line.id, 0);
    assert r.value.value.items.value[0] == line.(cantidad := 0);
    assert r.value.value.items.value == [line.(cantidad := 0)];
  }

  /** `enabled: !!id` for a route parameter: any non-empty string, "0" included, enables the query. */
  function QueryEnabled(param: Option<string>): (r: bool)
    ensures r <==> param.Some? && |param.value| > 0
  {
    param.Some? && param.value != ""
  }

  /** The body of `GET /categorias/<id>/`: an array, an object, or null/undefined/a primitive. */
  datatype CategoryBody<T> =
    | ArrayBody(elements: seq<T>)
    | ObjectBody(productos: Option<seq<T>>, products: Option<seq<T>>)
    | OtherBody

  /**
   * An array body is the list itself; an object body gives its `productos` list, or else its
   * `products` list, or else nothing; any other body gives nothing. Shared by query and prefetch.
   */
  function CategoryProducts<T>(data: CategoryBody<T>): (r: seq<T>)
    ensures data.ArrayBody? ==> r == data.elements
    ensures data.ObjectBody? && data.productos.Some? ==> r == data.productos.value
    ensures data.ObjectBody? && data.productos.None? && data.products.Some? ==> r == data.products.value
    ensures data.OtherBody? || (data.ObjectBody? && data.productos.None? && data.products.None?) ==> r == []
  {
    match data
    case ArrayBody(xs) => xs
    case ObjectBody(a, b) => if a.Some? then a.value else b.GetOr([])
    case OtherBody => []
  }

  /** Normalising is idempotent: a normalised list is itself an array body. */
  lemma CategoryProductsIdempotent<T>(data: CategoryBody<T>)
    ensures CategoryProducts(ArrayBody(CategoryProducts(data))) == CategoryProducts(data)
  {
  }

  /**
   * The query cache's `['cart']` entry as the mutations see it: the cached value and
   * whether `invalidateQueries` has marked it stale. Writing a value with `setQueryData`
   * stores it as fresh data and so clears that mark; an updater that yields nothing
   * (`undefined`) writes nothing.
   */
  class CartCache {
    var cart: Option<CartData>
    var stale: bool

    constructor ()
      ensures cart == None && !stale
    {
      cart := None;
      stale := false;
    }

    /** A completed fetch of `GET /carrito/` replaces the entry and makes it fresh. */
    method ReceiveCart(data: CartData)
      modifies this
      ensures cart == Some(data) && !stale
    {
      cart := Some(data);
      stale := false;
    }

    /** `setQueryData(['cart'], v)`: a present value replaces the entry and clears the stale mark. */
    method SetQueryData(v: Option<CartData>)
      modifies this
      ensures v.Some? ==> cart == v && !stale
      ensures v.None? ==> cart == old(cart) && stale == old(stale)
    {
      if v.Some? {
        cart := v;
        stale := false;
      }
    }

    /** useAddToCart's `onMutate`: snapshot, then patch. */
    method OnMutateAdd(productId: int, quantity: int, now: int) returns (ctx: MutationContext)
      modifies this
      ensures ctx == MutationContext(old(cart))
      ensures cart == AddPatch(old(cart), productId, quantity, now) && !stale
    {
      var previousCart := cart;
      SetQueryData(AddPatch(cart, productId, quantity, now));
      ctx := MutationContext(previousCart);
    }

    /** useUpdateCartItem's `onMutate`; no context when the updater throws. */
    method OnMutateUpdate(itemId: int, quantity: int) returns (ctx: Option<MutationContext>)
      modifies this
      ensures match UpdatePatch(old(cart), itemId, quantity)
        case Threw => ctx == None && cart == old(cart) && stale == old(stale)
        case Patched(v) => ctx == Some(MutationContext(old(cart))) && cart == v && stale == (v.None? && old(stale))
    {
      var previousCart := cart;
      var r := UpdatePatch(cart, itemId, quantity);
      if r.Threw? {
        ctx := None;
      } else {
        SetQueryData(r.value);
        ctx := Some(MutationContext(previousCart));
      }
    }

    /** useRemoveFromCart's `onMutate`; no context when the updater throws. */
    method OnMutateRemove(itemId: int) returns (ctx: Option<MutationContext>)
      modifies this
      ensures match RemovePatch(old(cart), itemId)
        case Threw => ctx == None && cart == old(cart) && stale == old(stale)
        case Patched(v) => ctx == Some(MutationContext(old(cart))) && cart == v && stale == (v.None? && old(stale))
    {
      var previousCart := cart;
      var r := RemovePatch(cart, itemId);
      if r.Threw? {
        ctx := None;
      } else {
        SetQueryData(r.value);
        ctx := Some(MutationContext(previousCart));
      }
    }

    /** The shared `onError`: a truthy snapshot is written back with `setQueryData`. */
    method OnError(ctx: Option<MutationContext>)
      modifies this
      ensures cart == Rollback(ctx, old(cart))
      ensures stale == (old(stale) && !(ctx.Some? && ctx.value.previousCart.Some?))
    {
      if ctx.Some? && ctx.value.previousCart.Some? {
        SetQueryData(ctx.value.previousCart);
      }
    }

    /** The shared `onSuccess`: `invalidateQueries({queryKey: ['cart']})`. */
    method OnSuccess()
      modifies this
      ensures cart == old(cart) && stale
    {
      stale := true;
    }

    /**
     * One add mutation from start to settlement, `serverOk` being the outcome of
     * `POST /carrito/agregar/`. A failure restores a loaded cart exactly, but a cart that
     * was never loaded has no truthy snapshot and keeps the optimistic `{items: []}`;
     * either way the entry was last written by `setQueryData` and is not stale.
     */
    method Add(productId: int, quantity: int, now: int, serverOk: bool)
      modifies this
      ensures serverOk ==> cart == AddPatch(old(cart), productId, quantity, now) && stale
      ensures !serverOk ==> cart == (if old(cart).Some? then old(cart) else Some(BlankCart)) && !stale
    {
      var ctx := OnMutateAdd(productId, quantity, now);
      if serverOk {
        OnSuccess();
      } else {
        OnError(Some(ctx));
      }
    }

    /**
     * One update mutation. When the updater throws, the request is never sent and the
     * entry is untouched. A failed request writes a loaded snapshot back, so the entry
     * is as it was and no longer stale; with nothing cached, nothing is ever written.
     */
    method Update(itemId: int, quantity: int, serverOk: bool)
      modifies this
      ensures UpdatePatch(old(cart), itemId, quantity) == Threw ==> cart == old(cart) && stale == old(stale)
      ensures !serverOk && UpdatePatch(old(cart), itemId, quantity).Patched? ==>
        cart == old(cart) && stale == (old(cart).None? && old(stale))
      ensures serverOk && UpdatePatch(old(cart), itemId, quantity).Patched? ==>
        cart == UpdatePatch(old(cart), itemId, quantity).value && stale
    {
      var ctx := OnMutateUpdate(itemId, quantity);
      if ctx.None? {
        OnError(ctx);
      } else if serverOk {
        OnSuccess();
      } else {
        OnError(ctx);
      }
    }

    /** One remove mutation; same settlement rules as `Update`. */
    method Remove(itemId: int, serverOk: bool)
      modifies this
      ensures RemovePatch(old(cart), itemId) == Threw ==> cart == old(cart) && stale == old(stale)
      ensures !serverOk && RemovePatch(old(cart), itemId).Patched? ==>
        cart == old(cart) && stale == (old(cart).None? && old(stale))
      ensures serverOk && RemovePatch(old(cart), itemId).Patched? ==>
        cart == RemovePatch(old(cart), itemId).value && stale
    {
      var ctx := OnMutateRemove(itemId);
      if ctx.None? {
        OnError(ctx);
      } else if serverOk {
        OnSuccess();
      } else {
        OnError(ctx);
      }
    }

    /** useIncreaseQuantity's `mutate`. */
    method Increase(itemId: int, currentQuantity: int, serverOk: bool)
      modifies this
      ensures UpdatePatch(old(cart), itemId, currentQuantity + 1) == Threw ==> cart == old(cart) && stale == old(stale)
      ensures !serverOk && UpdatePatch(old(cart), itemId, currentQuantity + 1).Patched? ==>
        cart == old(cart) && stale == (old(cart).None? && old(stale))
      ensures serverOk && UpdatePatch(old(cart), itemId, currentQuantity + 1).Patched? ==>
        cart == UpdatePatch(old(cart), itemId, currentQuantity + 1).value && stale
    {
      var v := IncreaseRequest(itemId, currentQuantity);
      Update(v.itemId, v.quantity, serverOk);
    }

    /** useDecreaseQuantity's `mutate`: nothing happens at all at quantity 1 or below. */
    method Decrease(itemId: int, currentQuantity: int, serverOk: bool)
      modifies this
      ensures currentQuantity <= 1 ==> cart == old(cart) && stale == old(stale)
      ensures currentQuantity > 1 && UpdatePatch(old(cart), itemId, currentQuantity - 1) == Threw ==>
        cart == old(cart) && stale == old(stale)
      ensures currentQuantity > 1 && !serverOk && UpdatePatch(old(cart), itemId, currentQuantity - 1).Patched? ==>
        cart == old(cart) && stale == (old(cart).None? && old(stale))
      ensures currentQuantity > 1 && serverOk && UpdatePatch(old(cart), itemId, currentQuantity - 1).Patched? ==>
        cart == UpdatePatch(old(cart), itemId, currentQuantity - 1).value && stale
    {
      var v := DecreaseRequest(itemId, currentQuantity);
      if v.Some? {
        Update(v.value.itemId, v.value.quantity, serverOk);
      }
    }
  }

  /**
   * Rollback restores the whole snapshot, not just its own operation's change: when an
   * add of one product fails after a later add of another product, absent from the
   * snapshot, has been applied, the entry returns to the loaded cart as it was before
   * both, and the later line is lost.
   */
  lemma {:induction false} LateRollbackDiscardsLaterPatch(c0: CartData, p1: int, q1: int, now1: int, p2: int, q2: int, now2: int)
    requires p1 != p2 && !HasProduct(Lines(c0), p2)
    ensures var c1 := AddPatch(Some(c0), p1, q1, now1);
            var c2 := AddPatch(c1, p2, q2, now2);
            && Lines(c2.value) == Lines(c1.value) + [ServerLine(now2, p2, q2, map[])]
            && Rollback(Some(MutationContext(Some(c0))), c2) == Some(c0)
            && HasProduct(Lines(c2.value), p2)
            && !HasProduct(Lines(Rollback(Some(MutationContext(Some(c0))), c2).value), p2)
  {
    var c1 := AddPatch(Some(c0), p1, q1, now1);
    var before, after := Lines(c0), Lines(c1.value);
    forall i | 0 <= i < |after|
      ensures after[i].productoId != p2
    {
      if HasProduct(before, p1) {
        assert after[i].productoId == before[i].productoId;
      } else if i < |before| {
        assert after[i] == before[i];
      } else {
        assert after[i] == ServerLine(now1, p1, q1, map[]);
      }
    }
    assert !HasProduct(after, p2);
    var c2 := AddPatch(c1, p2, q2, now2);
    assert Lines(c2.value)[|after|].productoId == p2;
  }
}
