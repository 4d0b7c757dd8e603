/**
 * The database the views of farmers_app/views.py read and write, as one object whose
 * fields are the tables, and the state-changing views as its methods: `add_to_cart`,
 * `update_cart_item`, `remove_cart_item`, `clear_cart` and `process_checkout`, plus
 * the row writes of `Product.save` and `ProductImage.save`.
 */
module Shop {
  import opened Wrappers
  import opened Identifiers
  import opened Catalog
  import opened Carts
  import opened Orders

  /** A cart's rows refer to products, hold each product once, and have distinct ids below `nextItemId`. */
  predicate CartRowsValid(items: seq<CartItem>, products: map<ProductId, Product>, nextItemId: ItemId)
  {
    && Stocked(items, products)
    && UniqueProducts(items)
    && DistinctIds(items)
    && (forall i | 0 <= i < |items| :: items[i].id < nextItemId)
  }

  /** A validated add keeps the rows valid once the fresh id is used up. */
  lemma AddKeepsRowsValid(items: seq<CartItem>, products: map<ProductId, Product>, pid: ProductId, q: real, next: ItemId)
    requires CartRowsValid(items, products, next) && pid in products && AddError(products[pid], q).None?
    ensures CartRowsValid(AddItem(items, pid, products[pid], q, next), products, next + 1)
  {
    AddItemMerges(items, pid, products[pid], q, next);
  }

  /** Replacing one row's quantity keeps the rows valid. */
  lemma UpdateKeepsRowsValid(items: seq<CartItem>, products: map<ProductId, Product>, id: ItemId, q: real, next: ItemId)
    requires CartRowsValid(items, products, next) && UpdateItem(items, products, id, q).Success?
    ensures CartRowsValid(UpdateItem(items, products, id, q).value, products, next)
  {
    var r := UpdateItem(items, products, id, q).value;
    assert forall i | 0 <= i < |r| :: r[i].product == items[i].product && r[i].id == items[i].id;
  }

  /** Deleting one row keeps the rows valid. */
  lemma RemoveKeepsRowsValid(items: seq<CartItem>, products: map<ProductId, Product>, id: ItemId, next: ItemId)
    requires CartRowsValid(items, products, next) && RemoveItem(items, id).Success?
    ensures CartRowsValid(RemoveItem(items, id).value, products, next)
  {
    var k := ItemIndex(items, id);
    var r := RemoveItem(items, id).value;
    assert forall i | 0 <= i < |r| :: r[i] == items[Skip(i, k)];
    assert Stocked(r, products);
    assert forall i | 0 <= i < |r| :: r[i].id < next;
    forall i, j | 0 <= i < j < |r|
      ensures r[i].product != r[j].product && r[i].id != r[j].id
    {
      assert Skip(i, k) < Skip(j, k);
    }
  }

  /** The position in the old rows of position `i` once row `k` is gone. */
  function Skip(i: nat, k: nat): nat
  {
    if i < k then i else i + 1
  }

  /** Rows stay valid under a product table with the same keys and a larger id counter. */
  lemma RowsValidUnder(items: seq<CartItem>, products: map<ProductId, Product>, products': map<ProductId, Product>, next: ItemId, next': ItemId)
    requires CartRowsValid(items, products, next) && products.Keys <= products'.Keys && next <= next'
    ensures CartRowsValid(items, products', next')
  {
  }

  /** `order_number` is `unique`. */
  predicate DistinctNumbers(orders: map<OrderId, Order>)
  {
    forall a, b | a in orders && b in orders && a != b :: orders[a].orderNumber != orders[b].orderNumber
  }

  /** A new order whose number no order carries keeps the numbers distinct. */
  lemma InsertKeepsNumbersDistinct(orders: map<OrderId, Order>, id: OrderId, o: Order)
    requires DistinctNumbers(orders) && id !in orders
    requires forall k | k in orders :: orders[k].orderNumber != o.orderNumber
    ensures DistinctNumbers(orders[id := o])
  {
  }

  class Marketplace {
    var products: map<ProductId, Product>
    var images: map<ImageId, ProductImage>
    var carts: map<CartId, Cart>
    var counties: set<CountyId>
    var orders: map<OrderId, Order>
    /** The next primary keys the database hands out. */
    var nextItemId: ItemId
    var nextOrderId: OrderId

    ghost predicate Valid()
      reads this
    {
      && (forall c | c in carts :: CartRowsValid(carts[c].items, products, nextItemId))
      && (forall o | o in orders :: o < nextOrderId)
      && DistinctNumbers(orders)
      && AtMostOneMain(images)
    }

    constructor (products: map<ProductId, Product>, counties: set<CountyId>)
      ensures Valid()
      ensures this.products == products && this.counties == counties
      ensures images == map[] && carts == map[] && orders == map[]
    {
      this.products := products;
      this.counties := counties;
      images := map[];
      carts := map[];
      orders := map[];
      nextItemId := 0;
      nextOrderId := 0;
    }

    /** The current cart as `get_or_create_cart` hands it over: the existing row, or a new empty one. */
    method OpenCart(c: CartId, sessionId: string, buyer: Option<BuyerId>)
      requires Valid()
      modifies this
      ensures Valid()
      ensures carts == if c in old(carts) then old(carts) else old(carts)[c := Cart(sessionId, buyer, [])]
      ensures products == old(products) && orders == old(orders) && images == old(images)
      ensures counties == old(counties) && nextItemId == old(nextItemId) && nextOrderId == old(nextOrderId)
    {
      if c !in carts {
        carts := carts[c := Cart(sessionId, buyer, [])];
      }
    }

    /** `Product.save` of row `id`: the row is written with its derived fields filled in. */
    method SaveProduct(id: ProductId, p: Product, slugified: string, hex: string)
      requires Valid() && IsUuidHex(hex)
      modifies this
      ensures Valid()
      ensures products == old(products)[id := ProductSave(p, slugified, hex)]
      ensures carts == old(carts) && orders == old(orders) && images == old(images)
      ensures counties == old(counties) && nextItemId == old(nextItemId) && nextOrderId == old(nextOrderId)
    {
      var before := products;
      products := products[id := ProductSave(p, slugified, hex)];
      forall c | c in carts
        ensures CartRowsValid(carts[c].items, products, nextItemId)
      {
        RowsValidUnder(carts[c].items, before, products, nextItemId, nextItemId);
      }
    }

    /** `ProductImage.save` of row `id`: a main image takes the main flag from its product's other images. */
    method SaveProductImage(id: ImageId, img: ProductImage)
      requires Valid()
      modifies this
      ensures Valid()
      ensures images == SaveImage(old(images), id, img)
      ensures products == old(products) && carts == old(carts) && orders == old(orders)
      ensures counties == old(counties) && nextItemId == old(nextItemId) && nextOrderId == old(nextOrderId)
    {
      SaveImageKeepsOneMain(images, id, img);
      images := SaveImage(images, id, img);
    }

    /**
     * `add_to_cart`: the product must exist and be active, the request passes the
     * quantity and stock checks, then the product's row is created with the quantity
     * asked for, or grown by it and clamped to the stock.  `r.value` tells whether a
     * row was created.
     */
    method AddToCart(c: CartId, pid: ProductId, q: real) returns (r: Result<bool, CartError>)
      requires Valid() && c in carts
      modifies this
      ensures Valid()
      ensures pid !in products || !products[pid].isActive ==> r == Failure(ProductUnavailable)
      ensures pid in products && products[pid].isActive && AddError(products[pid], q).Some? ==>
        r == Failure(AddError(products[pid], q).value)
      ensures r.Success? <==> pid in products && products[pid].isActive && AddError(products[pid], q).None?
      ensures r.Failure? ==> carts == old(carts) && nextItemId == old(nextItemId)
      ensures r.Success? ==>
        && pid in products && products[pid].isActive && AddError(products[pid], q).None?
        && r.value == (ProductIndex(old(carts)[c].items, pid) == -1)
        && carts == old(carts)[c := old(carts)[c].(items := AddItem(old(carts)[c].items, pid, products[pid], q, old(nextItemId)))]
        && nextItemId == old(nextItemId) + 1
      ensures products == old(products) && orders == old(orders) && images == old(images)
      ensures counties == old(counties) && nextOrderId == old(nextOrderId)
    {
      if pid !in products || !products[pid].isActive {
        return Failure(ProductUnavailable);
      }
      var e := AddError(products[pid], q);
      if e.Some? {
        return Failure(e.value);
      }
      var cart := carts[c];
      var created := ProductIndex(cart.items, pid) == -1;
      AddKeepsRowsValid(cart.items, products, pid, q, nextItemId);
      forall d | d in carts && d != c
        ensures CartRowsValid(carts[d].items, products, nextItemId + 1)
      {
        RowsValidUnder(carts[d].items, products, products, nextItemId, nextItemId + 1);
      }
      carts := carts[c := cart.(items := AddItem(cart.items, pid, products[pid], q, nextItemId))];
      nextItemId := nextItemId + 1;
      r := Success(created);
    }

    /** `update_cart_item`: the row must be in the current cart; a valid quantity replaces the old one. */
    method UpdateCartItem(c: CartId, id: ItemId, q: real) returns (err: Option<CartError>)
      requires Valid() && c in carts
      modifies this
      ensures Valid()
      ensures var u := UpdateItem(old(carts)[c].items, old(products), id, q);
        && (u.Failure? ==> err == Some(u.error) && carts == old(carts))
        && (u.Success? ==> err.None? && carts == old(carts)[c := old(carts)[c].(items := u.value)])
      ensures products == old(products) && orders == old(orders) && images == old(images)
      ensures counties == old(counties) && nextItemId == old(nextItemId) && nextOrderId == old(nextOrderId)
    {
      var cart := carts[c];
      var k := ItemIndex(cart.items, id);
      if k < 0 {
        return Some(ItemNotFound);
      }
      err := QuantityError(products[cart.items[k].product], q);
      if err.Some? {
        return;
      }
      UpdateKeepsRowsValid(cart.items, products, id, q, nextItemId);
      carts := carts[c := cart.(items := cart.items[k := cart.items[k].(quantity := q)])];
    }

    /** `remove_cart_item`: delete the named row of the current cart. */
    method RemoveCartItem(c: CartId, id: ItemId) returns (err: Option<CartError>)
      requires Valid() && c in carts
      modifies this
      ensures Valid()
      ensures var u := RemoveItem(old(carts)[c].items, id);
        && (u.Failure? ==> err == Some(u.error) && carts == old(carts))
        && (u.Success? ==> err.None? && carts == old(carts)[c := old(carts)[c].(items := u.value)])
      ensures err.None? ==> ItemIndex(carts[c].items, id) == -1
      ensures products == old(products) && orders == old(orders) && images == old(images)
      ensures counties == old(counties) && nextItemId == old(nextItemId) && nextOrderId == old(nextOrderId)
    {
      var cart := carts[c];
      var k := ItemIndex(cart.items, id);
      if k < 0 {
        return Some(ItemNotFound);
      }
      RemoveKeepsRowsValid(cart.items, products, id, nextItemId);
      carts := carts[c := cart.(items := cart.items[..k] + cart.items[k + 1..])];
      err := None;
    }

    /** `clear_cart`: the current cart keeps no rows. */
    method ClearCart(c: CartId)
      requires Valid() && c in carts
      modifies this
      ensures Valid()
      ensures carts == old(carts)[c := old(carts)[c].(items := [])]
      ensures products == old(products) && orders == old(orders) && images == old(images)
      ensures counties == old(counties) && nextItemId == old(nextItemId) && nextOrderId == old(nextOrderId)
    {
      carts := carts[c := carts[c].(items := [])];
    }

    /** Some order already carries this number (the `unique` constraint of `order_number`). */
    predicate NumberTaken(number: string)
      reads this
    {
      exists o | o in orders :: orders[o].orderNumber == number
    }

    /**
     * `process_checkout`, one transaction: every check first, and on any failure nothing
     * changes; then the order with its totals, one snapshot line per cart line, the
     * stock decrement of tracked products, and an emptied cart.  `today` and `hex`
     * stand for the clock and the uuid the order number is made from.  A buyer's cart
     * is the one `get_or_create_cart` keeps under that buyer.
     */
    method ProcessCheckout(
      c: CartId, profile: Option<BuyerId>, address: string, phone: string, county: Option<CountyId>,
      notes: string, paymentMethod: string, today: Date, hex: string) returns (r: Result<OrderId, CheckoutError>)
      requires Valid() && c in carts && ValidDate(today) && IsUuidHex(hex)
      requires profile.Some? ==> carts[c].buyer == profile
      modifies this
      ensures Valid()
      ensures var lines := Lines(old(carts)[c].items, old(products));
        var number := OrderNumber(today, hex);
        var rejection := CheckoutRejection(profile, lines, address, phone, county, old(counties), old(NumberTaken(number)));
        && (r.Failure? <==> rejection.Some?)
        && (r.Failure? ==>
              r.error == rejection.value && products == old(products) && carts == old(carts) && orders == old(orders))
        && (r.Success? ==>
              && r.value == old(nextOrderId) && r.value !in old(orders)
              && orders == old(orders)[r.value := PlacedOrder(profile.value, old(carts)[c].buyer, lines, address, phone,
                                                              county.value, notes, paymentMethod, number)]
              && products == RestockAll(old(products), lines)
              && carts == old(carts)[c := old(carts)[c].(items := [])])
      ensures images == old(images) && counties == old(counties) && nextItemId == old(nextItemId)
      ensures nextOrderId == if r.Success? then old(nextOrderId) + 1 else old(nextOrderId)
    {
      var number := OrderNumber(today, hex);
      ghost var rejection := CheckoutRejection(profile, Lines(carts[c].items, products), address, phone, county, counties, NumberTaken(number));
      if profile.None? {
        return Failure(NoBuyerProfile);
      }
      var cart := carts[c];
      var lines := Lines(cart.items, products);
      if lines == [] {
        return Failure(EmptyCart);
      }
      if address == "" || phone == "" || county.None? {
        return Failure(MissingDeliveryInfo);
      }
      if county.value !in counties {
        return Failure(UnknownCounty);
      }
      var issue := FindStockIssue(lines);
      if issue.Some? {
        return Failure(Stock(issue.value));
      }
      if NumberTaken(number) {
        return Failure(DuplicateOrderNumber);
      }
      assert rejection.None?;
      var id := CreateOrder(c, profile.value, address, phone, county.value, notes, paymentMethod, today, hex);
      r := Success(id);
    }

    /**
     * The writes of `process_checkout` once every check has passed: the order row, its
     * lines, the stock decrement and the emptied cart.
     */
    method CreateOrder(
      c: CartId, buyer: BuyerId, address: string, phone: string, county: CountyId,
      notes: string, paymentMethod: string, today: Date, hex: string) returns (id: OrderId)
      requires Valid() && c in carts && ValidDate(today) && IsUuidHex(hex)
      requires !NumberTaken(OrderNumber(today, hex))
      modifies this
      ensures Valid()
      ensures var lines := Lines(old(carts)[c].items, old(products));
        && id == old(nextOrderId) && id !in old(orders)
        && orders == old(orders)[id := PlacedOrder(buyer, old(carts)[c].buyer, lines, address, phone,
                                                   county, notes, paymentMethod, OrderNumber(today, hex))]
        && products == RestockAll(old(products), lines)
        && carts == old(carts)[c := old(carts)[c].(items := [])]
      ensures images == old(images) && counties == old(counties) && nextItemId == old(nextItemId)
      ensures nextOrderId == old(nextOrderId) + 1
    {
      var cart := carts[c];
      var lines := Lines(cart.items, products);
      var t := CheckoutTotals(cart.buyer, lines);
      var order := SaveOrder(
        Order("", buyer, address, phone, county, notes, t.subtotal, t.deliveryFee, t.serviceFee,
              t.total, Pending, paymentMethod, []),
        today, hex);
      var items, stock := PlaceLines(lines, products);
      order := order.(items := items);
      assert order == PlacedOrder(buyer, cart.buyer, lines, address, phone, county, notes, paymentMethod, order.orderNumber);
      RestockAllKeys(products, lines);
      forall d | d in carts && d != c
        ensures CartRowsValid(carts[d].items, stock, nextItemId)
      {
        RowsValidUnder(carts[d].items, products, stock, nextItemId, nextItemId);
      }
      InsertKeepsNumbersDistinct(orders, nextOrderId, order);
      id := nextOrderId;
      orders := orders[id := order];
      nextOrderId := nextOrderId + 1;
      products := stock;
      carts := carts[c := cart.(items := [])];
    }
  }

  /** The final stock check of `process_checkout`: the first line that cannot be filled, if any. */
  method FindStockIssue(lines: seq<Line>) returns (issue: Option<StockIssue>)
    ensures issue == FirstStockIssue(lines)
    ensures issue.None? <==> AllInStock(lines)
  {
    var i := 0;
    while i < |lines|
      invariant 0 <= i <= |lines|
      invariant AllInStock(lines[..i])
    {
      issue := LineStockIssue(lines[i]);
      if issue.Some? {
        FirstStockIssueAt(lines, i);
        return;
      }
      assert lines[..i + 1] == lines[..i] + [lines[i]];
      i := i + 1;
    }
    assert lines[..i] == lines;
    issue := None;
  }

  /**
   * The loop of `process_checkout` over the cart lines: one order line per cart line,
   * and each tracked product's quantity decremented (`save(update_fields=...)` stores
   * nothing else).
   */
  method PlaceLines(lines: seq<Line>, products: map<ProductId, Product>) returns (items: seq<OrderItem>, stock: map<ProductId, Product>)
    ensures items == Snapshots(lines)
    ensures stock == RestockAll(products, lines)
  {
    items := [];
    stock := products;
    var j := 0;
    while j < |lines|
      invariant 0 <= j <= |lines|
      invariant items == Snapshots(lines[..j])
      invariant stock == RestockAll(products, lines[..j])
    {
      var line := lines[j];
      assert lines[..j + 1][..j] == lines[..j];
      items := items + [Snapshot(line)];
      if line.product.availableQuantity > 0.0 {
        stock := stock[line.item.product := RestockAsWritten(line.product, line.item.quantity)];
      }
      j := j + 1;
    }
    assert lines[..j] == lines;
  }

  /** If the lines before `i` pass the stock check and line `i` fails, the check reports line `i`. */
  lemma {:induction false} FirstStockIssueAt(lines: seq<Line>, i: nat)
    requires i < |lines| && AllInStock(lines[..i]) && LineStockIssue(lines[i]).Some?
    ensures FirstStockIssue(lines) == LineStockIssue(lines[i])
    decreases |lines|
  {
    var n := |lines|;
    if i == n - 1 {
      assert lines[..n - 1] == lines[..i];
    } else {
      var init := lines[..n - 1];
      assert init[..i] == lines[..i] && init[i] == lines[i];
      FirstStockIssueAt(init, i);
    }
  }
}
