/**
 * The product detail page (src/pages/ProductDetail.js): which of its four branches it
 * shows, the fields it derives from the product record, the quantity stepper, and
 * the add-to-cart flow that runs the optimistic cache mutation and, once the server
 * accepts it, adds the product to the local cart `quantity` times.
 */
module ProductDetail {
  import opened Wrappers
  import opened ProductCard
  import opened CartContext
  import QueryCache

  const DetailPlaceholder: string := "https://via.placeholder.com/600x400"

  function Max(a: int, b: int): int { if a >= b then a else b }
  function Min(a: int, b: int): int { if a <= b then a else b }

  /** What the loaded page shows of the product. */
  datatype DetailView = DetailView(
    nombre: string,
    precio: int,
    imagen: string,
    stock: int,
    soldOutOverlay: bool,
    stockChip: StockLabel,
    limitedChip: bool)

  /** Lines 66-70 and the chips of the stock line. */
  function DescribeProduct(p: RawProduct): (v: DetailView)
    ensures v.nombre != "" && v.imagen != ""
    ensures v.nombre == DisplayName(p) && v.precio == DisplayPrice(p) && v.imagen == DisplayImage(p, DetailPlaceholder)
    ensures v.stock == DisplayStock(p)
    ensures v.soldOutOverlay <==> v.stock == 0
    ensures v.stockChip == NoStock <==> v.stock <= 0
    ensures v.stockChip == StockCaption(v.stock)
    ensures v.limitedChip <==> 0 < v.stock <= 5
    ensures !(v.limitedChip && v.soldOutOverlay)
  {
    var stock := DisplayStock(p);
    DetailView(DisplayName(p), DisplayPrice(p), DisplayImage(p, DetailPlaceholder), stock,
               IsOutOfStock(stock), StockCaption(stock), IsLowStock(stock))
  }

  datatype Branch = Spinner | LoadError | NotFound | Detail(view: DetailView)

  /** The early returns: loading first, then the error, then a missing product. */
  function PageBranch(isLoading: bool, hasError: bool, data: Option<RawProduct>): (b: Branch)
    ensures b == Spinner <==> isLoading
    ensures b == LoadError <==> !isLoading && hasError
    ensures b == NotFound <==> !isLoading && !hasError && data.None?
    ensures b.Detail? ==> data.Some? && b.view == DescribeProduct(data.value)
  {
    if isLoading then Spinner
    else if hasError then LoadError
    else if data.None? then NotFound
    else Detail(DescribeProduct(data.value))
  }

  /** The loaded page: the product, the numeric route id sent to the server, and the `quantity` state. */
  class ProductDetailPage {
    const product: RawProduct
    const productId: int
    var quantity: int

    function Stock(): int {
      DisplayStock(product)
    }

    predicate OutOfStock() {
      IsOutOfStock(Stock())
    }

    /** The stepper's range: at least 1, and within the stock unless it is the initial 1. */
    ghost predicate Valid()
      reads this
    {
      1 <= quantity && (quantity <= Stock() || quantity == 1)
    }

    predicate DecrementDisabled()
      reads this
    {
      quantity == 1 || OutOfStock()
    }

    predicate IncrementDisabled()
      reads this
    {
      quantity >= Stock() || OutOfStock()
    }

    predicate AddDisabled(isPending: bool) {
      OutOfStock() || isPending
    }

    constructor (product: RawProduct, productId: int)
      ensures this.product == product && this.productId == productId
      ensures quantity == 1 && Valid()
    {
      this.product := product;
      this.productId := productId;
      quantity := 1;
    }

    /** The "−" button; a click on it while disabled does nothing. */
    method ClickDecrement()
      modifies this
      ensures old(DecrementDisabled()) ==> quantity == old(quantity)
      ensures !old(DecrementDisabled()) ==> quantity == Max(1, old(quantity) - 1)
      ensures old(Valid()) ==> Valid()
      ensures old(Valid()) && Stock() >= 1 ==> 1 <= quantity <= Stock()
    {
      if !DecrementDisabled() {
        quantity := Max(1, quantity - 1);
      }
    }

    /** The "+" button; a click on it while disabled does nothing. */
    method ClickIncrement()
      modifies this
      ensures old(IncrementDisabled()) ==> quantity == old(quantity)
      ensures !old(IncrementDisabled()) ==> quantity == Min(Stock(), old(quantity) + 1) && quantity == old(quantity) + 1
      ensures old(Valid()) ==> Valid()
      ensures old(Valid()) && Stock() >= 1 ==> 1 <= quantity <= Stock()
    {
      if !IncrementDisabled() {
        quantity := Min(Stock(), quantity + 1);
      }
    }

    /** The `onSuccess` passed to `mutate`: `addToCart(product)` `quantity` times, then back to 1. */
    method OnAddSuccess(cart: CartProvider)
      requires Valid()
      modifies this, cart
      ensures cart.cartItems == AddTimes(old(cart.cartItems), product, old(quantity))
      ensures old(cart.Valid()) ==> cart.Valid()
      ensures quantity == 1 && Valid()
    {
      ghost var start := cart.cartItems;
      ghost var wasValid := cart.Valid();
      for i := 0 to quantity
        invariant cart.cartItems == AddTimes(start, product, i)
        invariant wasValid ==> cart.Valid()
      {
        cart.AddToCart(product);
      }
      quantity := 1;
    }

    /**
     * The add-to-cart button. Disabled, it does nothing. Otherwise the cache mutation runs
     * with the current quantity; `serverOk` is the outcome of the request.
     */
    method ClickAddToCart(cache: QueryCache.CartCache, cart: CartProvider, isPending: bool, now: int, serverOk: bool)
      requires Valid()
      modifies this, cache, cart
      ensures AddDisabled(isPending) ==>
        cache.cart == old(cache.cart) && cache.stale == old(cache.stale) &&
        cart.cartItems == old(cart.cartItems) && quantity == old(quantity)
      ensures !AddDisabled(isPending) && serverOk ==>
        && cache.cart == QueryCache.AddPatch(old(cache.cart), productId, old(quantity), now) && cache.stale
        && cart.cartItems == AddTimes(old(cart.cartItems), product, old(quantity))
        && quantity == 1
      ensures !AddDisabled(isPending) && !serverOk ==>
        && cache.cart == (if old(cache.cart).Some? then old(cache.cart) else Some(QueryCache.BlankCart))
        && !cache.stale
        && cart.cartItems == old(cart.cartItems) && quantity == old(quantity)
      ensures old(cart.Valid()) ==> cart.Valid()
      ensures Valid()
    {
      if !AddDisabled(isPending) {
        cache.Add(productId, quantity, now, serverOk);
        if serverOk {
          OnAddSuccess(cart);
        }
      }
    }
  }

  /** After a successful add of `q` units, the local cart holds exactly `q` more units of the product. */
  lemma SuccessfulAddGrowsLine(items: seq<LocalLine>, p: RawProduct, q: nat)
    requires UniqueIds(items) && q >= 1
    ensures QuantityOf(AddTimes(items, p, q), p.id) == QuantityOf(items, p.id) + q
    ensures items == [] ==> AddTimes(items, p, q) == [LocalLine(p, q)]
  {
    AddTimesQuantities(items, p, q);
    if items == [] {
      AddTimesFromEmpty(p, q);
    }
  }
}
