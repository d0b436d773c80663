/**
 * The product record as the catalog API delivers it, and the display fields a
 * product card derives from it (src/components/ProductCard.js). The product
 * detail page uses the same fallbacks and imports them from here.
 *
 * Field values that may be `null` or `undefined` are `Option`s. Prices are
 * integer cents; identifiers and stock are integers.
 */
module ProductCard {
  import opened Wrappers

  datatype RawProduct = RawProduct(
    nombre: Option<string>,
    name: Option<string>,
    precio: Option<int>,
    price: Option<int>,
    imagenUrl: Option<string>,
    image: Option<string>,
    id: Option<int>,
    pk: Option<int>,
    stock: Option<int>)

  const NoName: string := "Sin nombre"
  const CardPlaceholder: string := "https://via.placeholder.com/300x200"

  /** JavaScript truthiness of an optional string: present and not empty. */
  predicate Truthy(s: Option<string>) {
    s.Some? && s.value != ""
  }

  /** `a || b || fallback` over optional strings. */
  function FirstTruthy(a: Option<string>, b: Option<string>, fallback: string): (r: string)
    ensures Truthy(a) ==> r == a.value
    ensures !Truthy(a) && Truthy(b) ==> r == b.value
    ensures !Truthy(a) && !Truthy(b) ==> r == fallback
    ensures fallback != "" ==> r != ""
  {
    if Truthy(a) then a.value else if Truthy(b) then b.value else fallback
  }

  /** `a ?? b`: the first operand unless it is null or undefined. */
  function Coalesce<T>(a: Option<T>, b: Option<T>): (r: Option<T>)
    ensures a.Some? ==> r == a
    ensures a.None? ==> r == b
    ensures r.Some? <==> a.Some? || b.Some?
  {
    if a.Some? then a else b
  }

  /** `nombre || name || 'Sin nombre'`: an empty name is skipped, so the result is never empty. */
  function DisplayName(p: RawProduct): (r: string)
    ensures r != ""
    ensures Truthy(p.nombre) ==> r == p.nombre.value
    ensures !Truthy(p.nombre) && Truthy(p.name) ==> r == p.name.value
    ensures !Truthy(p.nombre) && !Truthy(p.name) ==> r == NoName
  {
    FirstTruthy(p.nombre, p.name, NoName)
  }

  /** `precio ?? price ?? 0`: an explicit price of 0 is kept, only a missing one falls through. */
  function DisplayPrice(p: RawProduct): (r: int)
    ensures p.precio.Some? ==> r == p.precio.value
    ensures p.precio.None? && p.price.Some? ==> r == p.price.value
    ensures p.precio.None? && p.price.None? ==> r == 0
  {
    Coalesce(Coalesce(p.precio, p.price), Some(0)).value
  }

  /** `imagen_url || image || placeholder`, for a page-specific placeholder. */
  function DisplayImage(p: RawProduct, placeholder: string): (r: string)
    ensures placeholder != "" ==> r != ""
    ensures Truthy(p.imagenUrl) ==> r == p.imagenUrl.value
    ensures !Truthy(p.imagenUrl) && Truthy(p.image) ==> r == p.image.value
    ensures !Truthy(p.imagenUrl) && !Truthy(p.image) ==> r == placeholder
  {
    FirstTruthy(p.imagenUrl, p.image, placeholder)
  }

  /** `id ?? pk`: absent only when both are absent. */
  function DisplayId(p: RawProduct): (r: Option<int>)
    ensures r.None? <==> p.id.None? && p.pk.None?
    ensures p.id.Some? ==> r == p.id
    ensures p.id.None? ==> r == p.pk
  {
    Coalesce(p.id, p.pk)
  }

  /** `stock ?? 0`. */
  function DisplayStock(p: RawProduct): (r: int)
    ensures p.stock.Some? ==> r == p.stock.value
    ensures p.stock.None? ==> r == 0
  {
    p.stock.GetOr(0)
  }

  predicate IsLowStock(stock: int) {
    stock > 0 && stock <= 5
  }

  predicate IsOutOfStock(stock: int) {
    stock == 0
  }

  /** Where the card's button leads: the detail route, or `'#'`. */
  datatype Link = ProductRoute(id: int) | Hash

  /** `id ? '/producto/' + id : '#'`: a missing id and the id 0 are both falsy. */
  function LinkTarget(id: Option<int>): (r: Link)
    ensures r.ProductRoute? <==> id.Some? && id.value != 0
    ensures r.ProductRoute? ==> r.id == id.value
  {
    if id.Some? && id.value != 0 then ProductRoute(id.value) else Hash
  }

  /** The stock caption: `'<n> en stock'` or `'Sin stock'`. */
  datatype StockLabel = InStock(count: int) | NoStock

  function StockCaption(stock: int): (r: StockLabel)
    ensures r == NoStock <==> stock <= 0
    ensures r.InStock? ==> r.count == stock && stock > 0
  {
    if stock > 0 then InStock(stock) else NoStock
  }

  /** Everything the card shows that depends on the record. */
  datatype Card = Card(
    nombre: string,
    precio: int,
    imagen: string,
    stock: int,
    lowStockChip: bool,
    outOfStockOverlay: bool,
    caption: StockLabel,
    link: Link,
    buttonDisabled: bool)

  function RenderCard(p: RawProduct): (c: Card)
    ensures c.nombre != "" && c.imagen != ""
    ensures c.nombre == DisplayName(p) && c.precio == DisplayPrice(p) && c.imagen == DisplayImage(p, CardPlaceholder)
    ensures c.stock == DisplayStock(p)
    ensures c.lowStockChip <==> 0 < c.stock <= 5
    ensures c.outOfStockOverlay <==> c.stock == 0
    ensures !(c.lowStockChip && c.outOfStockOverlay)
    ensures c.buttonDisabled <==> c.stock == 0
    ensures c.caption == NoStock <==> c.stock <= 0
    ensures c.link.ProductRoute? <==> DisplayId(p).Some? && DisplayId(p).value != 0
    ensures c.link == LinkTarget(DisplayId(p)) && c.caption == StockCaption(c.stock)
  {
    var stock := DisplayStock(p);
    Card(DisplayName(p), DisplayPrice(p), DisplayImage(p, CardPlaceholder), stock,
         IsLowStock(stock), IsOutOfStock(stock), StockCaption(stock),
         LinkTarget(DisplayId(p)), IsOutOfStock(stock))
  }

  /** An id of 0 is falsy, so such a card links to `'#'` although the id is present. */
  lemma ZeroIdLinksNowhere(p: RawProduct)
    requires p.id == Some(0)
    ensures RenderCard(p).link == Hash
  {
  }

  /**
   * The caption and the button disagree on a negative stock: the caption says
   * "Sin stock" while the button stays enabled, because out-of-stock is `stock === 0`.
   */
  lemma NegativeStockCardStaysEnabled(p: RawProduct)
    requires p.stock.Some? && p.stock.value < 0
    ensures RenderCard(p).caption == NoStock && !RenderCard(p).buttonDisabled
  {
  }
}
