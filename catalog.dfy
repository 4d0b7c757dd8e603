/**
 * The catalogue of farmers_app/models.py: categories, sub-categories, products
 * and product images, with the derived fields their `save` hooks fill in and the
 * pricing properties of a product.
 */
module Catalog {
  import opened Wrappers
  import opened Identifiers

  type CategoryId = nat
  type ProductId = nat
  type FarmerId = nat
  type ImageId = nat

  datatype Category = Category(name: string, slug: string, isActive: bool, sortOrder: nat)

  datatype SubCategory = SubCategory(category: CategoryId, name: string, slug: string, isActive: bool)

  /** `Category.save`: the slug (`slugify(name)`, passed in) is filled in only when blank. */
  function SaveCategory(c: Category, slugified: string): (r: Category)
    ensures c.slug != "" ==> r == c
    ensures c.slug == "" ==> r.slug == slugified && r.(slug := "") == c
  {
    if c.slug == "" then c.(slug := slugified) else c
  }

  /** Saving a category a second time never changes the slug it got. */
  lemma SaveCategoryIdempotent(c: Category, s1: string, s2: string)
    requires s1 != ""
    ensures SaveCategory(SaveCategory(c, s1), s2) == SaveCategory(c, s1)
  {
  }

  /** `SubCategory.save`: the slug (`slugify(name)`, passed in) is filled in only when blank. */
  function SaveSubCategory(c: SubCategory, slugified: string): (r: SubCategory)
    ensures c.slug != "" ==> r == c
    ensures c.slug == "" ==> r.slug == slugified && r.(slug := "") == c
  {
    if c.slug == "" then c.(slug := slugified) else c
  }

  datatype StockStatus = Available | LowStock | SoldOut | Harvesting | PreOrder

  /** A product row; `discountPrice` is the nullable `discount_price` column. */
  datatype Product = Product(
    farmer: FarmerId,
    category: CategoryId,
    name: string,
    slug: string,
    sku: string,
    price: real,
    discountPrice: Option<real>,
    minimumOrder: real,
    availableQuantity: real,
    lowStockThreshold: real,
    unit: string,
    stockStatus: StockStatus,
    isActive: bool)

  /** The quantity rule of `Product.save`. */
  function StatusFor(quantity: real, threshold: real): (s: StockStatus)
    ensures s == SoldOut <==> quantity == 0.0
    ensures s == LowStock <==> quantity != 0.0 && quantity <= threshold
    ensures s == Available <==> quantity != 0.0 && threshold < quantity
  {
    if quantity == 0.0 then SoldOut
    else if quantity <= threshold then LowStock
    else Available
  }

  /** `is_in_stock`: only the two orderable states count. */
  predicate IsInStock(p: Product)
  {
    p.stockStatus == Available || p.stockStatus == LowStock
  }

  /**
   * `Product.save`: slug and SKU are generated only when blank (`slugified` stands for
   * `slugify(f"{name}-{farm_name}")`, `hex` for a fresh uuid), and the stock status is
   * always recomputed from the quantity.
   */
  function ProductSave(p: Product, slugified: string, hex: string): (r: Product)
    requires IsUuidHex(hex)
    ensures r.stockStatus != Harvesting && r.stockStatus != PreOrder
    ensures IsInStock(r) <==> p.availableQuantity != 0.0
    ensures r.stockStatus == LowStock <==> p.availableQuantity != 0.0 && p.availableQuantity <= p.lowStockThreshold
    ensures p.slug != "" ==> r.slug == p.slug
    ensures p.slug == "" ==> r.slug == slugified
    ensures p.sku != "" ==> r.sku == p.sku
    ensures p.sku == "" ==> |r.sku| == 13 && r.sku[..5] == "FARM-" && AllUpperHex(r.sku[5..])
    ensures r.(slug := p.slug, sku := p.sku, stockStatus := p.stockStatus) == p
  {
    p.(slug := if p.slug == "" then slugified else p.slug,
       sku := if p.sku == "" then Sku(hex) else p.sku,
       stockStatus := StatusFor(p.availableQuantity, p.lowStockThreshold))
  }

  /** A second save changes nothing: identifiers are never regenerated, the status is already derived. */
  lemma ProductSaveIdempotent(p: Product, s1: string, h1: string, s2: string, h2: string)
    requires IsUuidHex(h1) && IsUuidHex(h2) && s1 != ""
    ensures ProductSave(ProductSave(p, s1, h1), s2, h2) == ProductSave(p, s1, h1)
  {
  }

  /** `selling_price`: the discount price whenever it is set and nonzero, even above `price`. */
  function SellingPrice(p: Product): (r: real)
    ensures r == p.price || (p.discountPrice.Some? && r == p.discountPrice.value)
    ensures p.discountPrice.Some? && p.discountPrice.value != 0.0 ==> r == p.discountPrice.value
    ensures p.discountPrice.None? || p.discountPrice.value == 0.0 ==> r == p.price
    ensures (p.discountPrice.None? || p.discountPrice.value <= p.price) ==> r <= p.price
    ensures p.price >= 0.0 && (p.discountPrice.None? || p.discountPrice.value >= 0.0) ==> r >= 0.0
  {
    if p.discountPrice.Some? && p.discountPrice.value != 0.0 then p.discountPrice.value else p.price
  }

  /** Python's `round` on a `Decimal`: nearest integer, ties to the even one. */
  function RoundHalfEven(x: real): (n: int)
    ensures (n as real) - 0.5 <= x <= (n as real) + 0.5
    ensures x == (n as real) + 0.5 || x == (n as real) - 0.5 ==> n % 2 == 0
  {
    var f := x.Floor;
    var frac := x - f as real;
    if frac < 0.5 then f
    else if frac > 0.5 then f + 1
    else if f % 2 == 0 then f
    else f + 1
  }

  /** The guard of `discount_percentage`: a discount is set, nonzero and below the price. */
  predicate HasDiscountBelowPrice(p: Product)
  {
    p.discountPrice.Some? && p.discountPrice.value != 0.0 && p.discountPrice.value < p.price
  }

  lemma RatioBelowOne(price: real, discount: real)
    requires 0.0 < discount < price
    ensures 0.0 < (price - discount) / price * 100.0 < 100.0
  {
    var ratio := (price - discount) / price;
    assert ratio * price == price - discount;
    assert 0.0 < ratio;
    if ratio >= 1.0 {
      assert false;
    }
  }

  lemma RatioAboveOne(price: real, discount: real)
    requires discount < 0.0 < price
    ensures (price - discount) / price * 100.0 > 100.0
  {
    var ratio := (price - discount) / price;
    assert ratio * price == price - discount;
    if ratio <= 1.0 {
      assert false;
    }
  }

  /**
   * `discount_percentage`: 0 unless the guard holds; then the rounded percentage off the
   * price.  `None` is the `Decimal` division by zero a zero price with a negative discount raises.
   */
  function DiscountPercentage(p: Product): (r: Option<int>)
    ensures r.None? <==> HasDiscountBelowPrice(p) && p.price == 0.0
    ensures !HasDiscountBelowPrice(p) ==> r == Some(0)
    ensures r.Some? && HasDiscountBelowPrice(p) ==>
      var exact := (p.price - p.discountPrice.value) / p.price * 100.0;
      && (r.value as real) - 0.5 <= exact <= (r.value as real) + 0.5
      && r.value == RoundHalfEven(exact)
    ensures p.price > 0.0 && p.discountPrice.Some? && p.discountPrice.value > 0.0 ==>
      r.Some? && 0 <= r.value <= 100
    ensures p.price > 0.0 && p.discountPrice.Some? && p.discountPrice.value < 0.0 ==>
      r.Some? && r.value >= 100
  {
    if HasDiscountBelowPrice(p) then
      if p.price == 0.0 then None
      else
        var exact := (p.price - p.discountPrice.value) / p.price * 100.0;
        if p.discountPrice.value > 0.0 then
          RatioBelowOne(p.price, p.discountPrice.value);
          Some(RoundHalfEven(exact))
        else if p.price > 0.0 && p.discountPrice.value < 0.0 then
          RatioAboveOne(p.price, p.discountPrice.value);
          Some(RoundHalfEven(exact))
        else Some(RoundHalfEven(exact))
    else Some(0)
  }

  /** A discount at or above the price is still charged, yet advertised as 0% off. */
  lemma DiscountAbovePriceIsCharged(p: Product)
    requires p.discountPrice.Some? && p.discountPrice.value != 0.0 && p.discountPrice.value >= p.price
    ensures SellingPrice(p) == p.discountPrice.value >= p.price
    ensures DiscountPercentage(p) == Some(0)
  {
  }

  /** A positive advertised discount means the product sells below its price. */
  lemma PositiveDiscountSellsBelowPrice(p: Product)
    requires DiscountPercentage(p).Some? && DiscountPercentage(p).value > 0
    ensures SellingPrice(p) < p.price
  {
  }

  /** An image row; the image file itself is not modelled. */
  datatype ProductImage = ProductImage(product: ProductId, altText: string, isMain: bool, sortOrder: nat)

  /** No product has two main images. */
  ghost predicate AtMostOneMain(images: map<ImageId, ProductImage>)
  {
    forall a, b | a in images && b in images && images[a].isMain && images[b].isMain ::
      images[a].product == images[b].product ==> a == b
  }

  /**
   * `ProductImage.save` of row `id`: a main image first clears the main flag of every
   * image of the same product, then the row is written.
   */
  function SaveImage(images: map<ImageId, ProductImage>, id: ImageId, img: ProductImage): (r: map<ImageId, ProductImage>)
    ensures r.Keys == images.Keys + {id} && r[id] == img
    ensures img.isMain ==> forall k | k in r && k != id && r[k].product == img.product :: !r[k].isMain
    ensures forall k | k in images && k != id ::
      r[k] == images[k] || (img.isMain && r[k] == images[k].(isMain := false) && images[k].product == img.product)
  {
    var cleared :=
      if img.isMain then
        map k | k in images :: if images[k].product == img.product then images[k].(isMain := false) else images[k]
      else images;
    cleared[id := img]
  }

  /** Saving an image keeps at most one main image per product. */
  lemma SaveImageKeepsOneMain(images: map<ImageId, ProductImage>, id: ImageId, img: ProductImage)
    requires AtMostOneMain(images)
    ensures AtMostOneMain(SaveImage(images, id, img))
  {
  }
}
