/**
  What `displayProducts` renders for a brand's product collection: one entry
  per product with a best-effort price and image, or the "no products"
  message for an empty collection. Products are the records of the catalog's
  `products.json` response; only the fields the widget reads are kept.
 */
module Products {
  import opened Options

  datatype Variant = Variant(price: string)
  datatype Image = Image(src: string)

  /** A product as served: `variants`, `featured_image` and `images` may be
      absent. */
  datatype Product = Product(
    handle: string,
    title: string,
    variants: Option<seq<Variant>>,
    featuredImage: Option<Image>,
    images: Option<seq<Image>>)

  /** One rendered `.product-item`: link target, image source and alt text,
      title and price line. */
  datatype ProductItem = ProductItem(href: string, imageSrc: string, alt: string, title: string, priceLabel: string)

  /** The content of the `.product-list` region. */
  datatype ProductList =
    | Items(entries: seq<ProductItem>)   // the product entries (none: the region is blank)
    | Loading                            // "Loading products..."
    | NoProducts                         // "No products found for this brand."
    | LoadError                          // "Sorry, there was an error loading the products."

  const DefaultImage: string := "default-image.jpg"

  /** The zero price, as the template prints the number 0. */
  const ZeroPrice: string := "0"

  /** Every price a product's variants carry. */
  function VariantPrices(p: Product): set<string>
  {
    if p.variants.Some? then set v | v in p.variants.value :: v.price else {}
  }

  /** Every image source a product mentions. */
  function ImageSources(p: Product): set<string>
  {
    (if p.featuredImage.Some? then {p.featuredImage.value.src} else {}) +
    (if p.images.Some? then set im | im in p.images.value :: im.src else {})
  }

  /** The displayed price: the first variant's price, or 0 when the product
      has no variants at all. */
  function PriceOf(p: Product): (r: string)
    ensures r in VariantPrices(p) + {ZeroPrice}
    ensures p.variants.Some? && |p.variants.value| > 0 ==> r == p.variants.value[0].price
    ensures (p.variants.None? || p.variants.value == []) ==> r == ZeroPrice
  {
    if p.variants.Some? && |p.variants.value| > 0 then p.variants.value[0].price else ZeroPrice
  }

  /** The displayed image: the featured image, else the first of `images`,
      else the default picture. */
  function ImageOf(p: Product): (r: string)
    ensures r in ImageSources(p) + {DefaultImage}
    ensures p.featuredImage.Some? ==> r == p.featuredImage.value.src
    ensures p.featuredImage.None? && p.images.Some? && |p.images.value| > 0 ==> r == p.images.value[0].src
    ensures r == DefaultImage && DefaultImage !in ImageSources(p) ==> ImageSources(p) == {}
  {
    if p.featuredImage.Some? then p.featuredImage.value.src
    else if p.images.Some? && |p.images.value| > 0 then p.images.value[0].src
    else DefaultImage
  }

  /** The entry rendered for one product. */
  function ItemFor(p: Product): ProductItem
  {
    ProductItem("/products/" + p.handle, ImageOf(p), p.title, p.title, PriceOf(p) + " USD")
  }

  /** The entries the `forEach` loop appends, in order. */
  function ItemsFor(products: seq<Product>): seq<ProductItem>
  {
    if products == [] then []
    else ItemsFor(products[..|products| - 1]) + [ItemFor(products[|products| - 1])]
  }

  /** Exactly one entry per product, in the order of the collection. */
  lemma {:induction false} ItemsForAt(products: seq<Product>)
    ensures |ItemsFor(products)| == |products|
    ensures forall i :: 0 <= i < |products| ==> ItemsFor(products)[i] == ItemFor(products[i])
  {
    if products != [] {
      var init := products[..|products| - 1];
      ItemsForAt(init);
      assert ItemsFor(products) == ItemsFor(init) + [ItemFor(products[|products| - 1])];
      forall i | 0 <= i < |products|
        ensures ItemsFor(products)[i] == ItemFor(products[i])
      {
        if i < |init| {
          assert products[i] == init[i];
        }
      }
    }
  }

  /** The region after `displayProducts`: the entries of a non-empty
      collection, the "no products" message for an empty one; never the
      loading or the error message. */
  function Rendered(products: seq<Product>): (r: ProductList)
    ensures r == NoProducts <==> products == []
    ensures r.Items? <==> products != []
    ensures r.Items? ==> |r.entries| == |products|
    ensures r.Items? ==> forall i :: 0 <= i < |products| ==> r.entries[i] == ItemFor(products[i])
  {
    ItemsForAt(products);
    if |products| > 0 then Items(ItemsFor(products)) else NoProducts
  }
}
