/**
 * Orders of farmers_app/models.py (`Order`, `OrderItem` and their `save` hooks) and the
 * pure parts of checkout in farmers_app/views.py: the stock checks, the fee
 * arithmetic, the order-item snapshots and the stock decrement.
 */
module Orders {
  import opened Wrappers
  import opened Identifiers
  import opened Catalog
  import opened Carts

  type OrderId = nat
  type CountyId = nat

  datatype OrderStatus = Pending | Paid | Assigned | PickedUp | InTransit | Delivered | Completed | Cancelled | Refunded

  /** An order line; name, SKU, unit, farmer and prices are frozen copies taken at checkout. */
  datatype OrderItem = OrderItem(
    product: ProductId,
    farmer: FarmerId,
    quantity: real,
    unitPrice: real,
    totalPrice: real,
    productName: string,
    productSku: string,
    unit: string)

  datatype Order = Order(
    orderNumber: string,
    buyer: BuyerId,
    deliveryAddress: string,
    deliveryPhone: string,
    deliveryCounty: CountyId,
    deliveryNotes: string,
    subtotal: real,
    deliveryFee: real,
    serviceFee: real,
    totalAmount: real,
    status: OrderStatus,
    paymentMethod: string,
    items: seq<OrderItem>)

  /** `Order.save`: an order number is generated only when the order has none. */
  function SaveOrder(o: Order, today: Date, hex: string): (r: Order)
    requires ValidDate(today) && IsUuidHex(hex)
    ensures o.orderNumber != "" ==> r == o
    ensures o.orderNumber == "" ==>
      && r.(orderNumber := "") == o
      && |r.orderNumber| == 16 && |r.orderNumber| <= NumberMaxLength
      && r.orderNumber[..2] == "AG" && AllUpperHex(r.orderNumber[10..])
      && AllDigits(r.orderNumber[2..10])
      && ParseDateStamp(r.orderNumber[2..10]) == today
  {
    OrderNumberCarriesDate(today, hex);
    if o.orderNumber == "" then o.(orderNumber := OrderNumber(today, hex)) else o
  }

  /** Saving an order again never renumbers it. */
  lemma SaveOrderIdempotent(o: Order, d1: Date, h1: string, d2: Date, h2: string)
    requires ValidDate(d1) && IsUuidHex(h1) && ValidDate(d2) && IsUuidHex(h2)
    ensures SaveOrder(SaveOrder(o, d1, h1), d2, h2) == SaveOrder(o, d1, h1)
  {
  }

  /** `OrderItem.save`: copy the product's descriptive fields and fix the line total. */
  function SaveOrderItem(oi: OrderItem, p: Product): (r: OrderItem)
    ensures r.productName == p.name && r.productSku == p.sku && r.unit == p.unit && r.farmer == p.farmer
    ensures r.totalPrice == r.quantity * r.unitPrice
    ensures r.product == oi.product && r.quantity == oi.quantity && r.unitPrice == oi.unitPrice
  {
    oi.(productName := p.name, productSku := p.sku, unit := p.unit, farmer := p.farmer,
        totalPrice := oi.quantity * oi.unitPrice)
  }

  /** The order line `process_checkout` creates for one cart line. */
  function Snapshot(l: Line): (oi: OrderItem)
    ensures oi.product == l.item.product && oi.quantity == l.item.quantity
    ensures oi.unitPrice == SellingPrice(l.product) && oi.totalPrice == LineTotal(l)
    ensures oi.farmer == l.product.farmer && oi.productName == l.product.name && oi.productSku == l.product.sku
    ensures oi.unit == l.product.unit
  {
    SaveOrderItem(
      OrderItem(l.item.product, l.product.farmer, l.item.quantity, SellingPrice(l.product), LineTotal(l),
                l.product.name, l.product.sku, l.product.unit),
      l.product)
  }

  function Snapshots(lines: seq<Line>): (items: seq<OrderItem>)
    ensures |items| == |lines|
    ensures forall i | 0 <= i < |lines| :: items[i] == Snapshot(lines[i])
  {
    if lines == [] then [] else Snapshots(lines[..|lines| - 1]) + [Snapshot(lines[|lines| - 1])]
  }

  /** `Order.total_items`: the sum of the line quantities, 0 for an order without lines. */
  function OrderTotalItems(items: seq<OrderItem>): (n: real)
    ensures (forall i | 0 <= i < |items| :: items[i].quantity >= 0.0) ==> n >= 0.0
  {
    if items == [] then 0.0 else OrderTotalItems(items[..|items| - 1]) + items[|items| - 1].quantity
  }

  function SumLineTotals(items: seq<OrderItem>): real
  {
    if items == [] then 0.0 else SumLineTotals(items[..|items| - 1]) + items[|items| - 1].totalPrice
  }

  /** `Order.unique_farmers`: the farmers of the products on the order, read from the live product rows. */
  function UniqueFarmers(o: Order, products: map<ProductId, Product>): set<FarmerId>
    requires forall it | it in o.items :: it.product in products
  {
    set it | it in o.items :: products[it.product].farmer
  }

  /** The order lines of a cart carry its item count and its amount. */
  lemma {:induction false} SnapshotsTotals(lines: seq<Line>)
    ensures OrderTotalItems(Snapshots(lines)) == TotalItems(lines)
    ensures SumLineTotals(Snapshots(lines)) == TotalAmount(lines)
  {
    if lines != [] {
      var n := |lines|;
      assert Snapshots(lines)[..n - 1] == Snapshots(lines[..n - 1]);
      SnapshotsTotals(lines[..n - 1]);
    }
  }

  // ---------------------------------------------------------------------------
  // Stock checks

  datatype StockIssue = NotInStock(product: ProductId) | OnlyAvailable(product: ProductId, available: real)

  /** The stock check of one cart line, shared by `checkout` and `process_checkout`. */
  function LineStockIssue(l: Line): (r: Option<StockIssue>)
    ensures r.None? <==>
      IsInStock(l.product) && (l.product.availableQuantity > 0.0 ==> l.item.quantity <= l.product.availableQuantity)
    ensures r == Some(NotInStock(l.item.product)) <==> !IsInStock(l.product)
    ensures IsInStock(l.product) && r.Some? ==> r == Some(OnlyAvailable(l.item.product, l.product.availableQuantity))
  {
    if !IsInStock(l.product) then Some(NotInStock(l.item.product))
    else if l.product.availableQuantity > 0.0 && l.item.quantity > l.product.availableQuantity then
      Some(OnlyAvailable(l.item.product, l.product.availableQuantity))
    else None
  }

  predicate AllInStock(lines: seq<Line>)
  {
    forall i | 0 <= i < |lines| :: LineStockIssue(lines[i]).None?
  }

  /** `out_of_stock_items` of the checkout page: every failing line, in cart order. */
  function StockIssues(lines: seq<Line>): (r: seq<StockIssue>)
    ensures r == [] <==> AllInStock(lines)
    ensures |r| <= |lines|
  {
    if lines == [] then []
    else
      var n := |lines|;
      var e := LineStockIssue(lines[n - 1]);
      assert AllInStock(lines) <==> AllInStock(lines[..n - 1]) && e.None?;
      StockIssues(lines[..n - 1]) + (if e.Some? then [e.value] else [])
  }

  /** The page lists an issue exactly when some line of the cart has it. */
  lemma {:induction false} StockIssuesListsEveryFailure(lines: seq<Line>)
    ensures forall x :: x in StockIssues(lines) <==> exists i | 0 <= i < |lines| :: LineStockIssue(lines[i]) == Some(x)
  {
    if lines != [] {
      var n := |lines|;
      var init := lines[..n - 1];
      StockIssuesListsEveryFailure(init);
      forall x | x in StockIssues(lines)
        ensures exists i | 0 <= i < n :: LineStockIssue(lines[i]) == Some(x)
      {
        if x in StockIssues(init) {
          var i :| 0 <= i < n - 1 && LineStockIssue(init[i]) == Some(x);
          assert lines[i] == init[i];
        } else {
          assert LineStockIssue(lines[n - 1]) == Some(x);
        }
      }
      forall x, i | 0 <= i < n && LineStockIssue(lines[i]) == Some(x)
        ensures x in StockIssues(lines)
      {
        if i < n - 1 {
          assert init[i] == lines[i];
        }
      }
    }
  }

  /** The page lists the issues of a cart's first part, then those of its second part. */
  lemma {:induction false} StockIssuesAppend(a: seq<Line>, b: seq<Line>)
    ensures StockIssues(a + b) == StockIssues(a) + StockIssues(b)
    decreases |b|
  {
    if b != [] {
      var ab := a + b;
      var n := |b|;
      var e := LineStockIssue(b[n - 1]);
      var tail := if e.Some? then [e.value] else [];
      assert ab[..|ab| - 1] == a + b[..n - 1];
      assert ab[|ab| - 1] == b[n - 1];
      assert StockIssues(ab) == StockIssues(a + b[..n - 1]) + tail;
      assert StockIssues(b) == StockIssues(b[..n - 1]) + tail;
      StockIssuesAppend(a, b[..n - 1]);
    } else {
      assert a + b == a;
    }
  }

  /** One line contributes its own issue, if it has one. */
  lemma StockIssuesSingle(l: Line)
    ensures StockIssues([l]) == if LineStockIssue(l).Some? then [LineStockIssue(l).value] else []
  {
    assert [l][..0] == [];
  }

  /** The final stock check of `process_checkout`: the issue of the first failing line. */
  function FirstStockIssue(lines: seq<Line>): (r: Option<StockIssue>)
    ensures r.None? <==> AllInStock(lines)
  {
    if lines == [] then None
    else
      var n := |lines|;
      assert AllInStock(lines) <==> AllInStock(lines[..n - 1]) && LineStockIssue(lines[n - 1]).None?;
      var f := FirstStockIssue(lines[..n - 1]);
      if f.Some? then f else LineStockIssue(lines[n - 1])
  }

  /** The checkout page and the final check agree: the order is refused for the first issue the page lists. */
  lemma {:induction false} FirstIssueIsFirstListed(lines: seq<Line>)
    ensures FirstStockIssue(lines) == if StockIssues(lines) == [] then None else Some(StockIssues(lines)[0])
  {
    if lines != [] {
      FirstIssueIsFirstListed(lines[..|lines| - 1]);
    }
  }

  // ---------------------------------------------------------------------------
  // Fees

  const ServiceFeeRate: real := 0.05

  datatype Totals = Totals(subtotal: real, deliveryFee: real, serviceFee: real, total: real)

  /** The totals `checkout` shows and `process_checkout` charges. */
  function CheckoutTotals(cartBuyer: Option<BuyerId>, lines: seq<Line>): (t: Totals)
    ensures t.subtotal == TotalAmount(lines) && t.deliveryFee == DeliveryFeeEstimate(cartBuyer, lines)
    ensures t.serviceFee == t.subtotal * ServiceFeeRate
    ensures t.total == t.subtotal + t.deliveryFee + t.serviceFee
    ensures t.total == t.subtotal * 1.05 + t.deliveryFee
    ensures t.subtotal >= 0.0 ==> t.total >= t.subtotal + t.deliveryFee >= t.subtotal
  {
    var subtotal := TotalAmount(lines);
    var deliveryFee := DeliveryFeeEstimate(cartBuyer, lines);
    var serviceFee := subtotal * ServiceFeeRate;
    Totals(subtotal, deliveryFee, serviceFee, subtotal + deliveryFee + serviceFee)
  }

  // ---------------------------------------------------------------------------
  // Stock decrement

  /** A product tracks its stock when its quantity is positive; 0 stands for "unlimited". */
  predicate Tracked(p: Product) { p.availableQuantity > 0.0 }

  /**
   * The decrement as `process_checkout` writes it: `save(update_fields=['available_quantity'])`
   * persists the new quantity only, so the stored stock status is left as it was.
   */
  function RestockAsWritten(p: Product, q: real): (r: Product)
    ensures Tracked(p) ==> r.availableQuantity == p.availableQuantity - q
    ensures r.stockStatus == p.stockStatus
    ensures r.(availableQuantity := p.availableQuantity) == p
  {
    if Tracked(p) then p.(availableQuantity := p.availableQuantity - q) else p
  }

  /**
   * Selling the last units of any product that is on sale, with the decrement as
   * written, leaves it on sale and untracked: every add that meets the minimum passes.
   */
  lemma SoldOutStaysOnSale(p: Product, more: real)
    requires Tracked(p) && IsInStock(p)
    requires more > 0.0 && more >= p.minimumOrder
    ensures var after := RestockAsWritten(p, p.availableQuantity);
      && after.availableQuantity == 0.0 && after.stockStatus == p.stockStatus
      && !Tracked(after) && IsInStock(after)
      && AddError(after, more).None?
      && LineStockIssue(Line(CartItem(0, 0, more), after)).None?
  {
  }

  /** The input of the finding: 5 kg in stock at low stock, 5 kg bought, then 1000 kg pass every check. */
  lemma SoldOutExample()
    ensures var p := Product(7, 1, "Sukuma wiki", "sukuma-wiki", "FARM-0A1B2C3D", 50.0, None, 1.0, 5.0, 10.0,
                             "kg", LowStock, true);
            var after := RestockAsWritten(p, 5.0);
            && LineStockIssue(Line(CartItem(1, 3, 5.0), p)).None?
            && after.availableQuantity == 0.0
            && !Tracked(after) && IsInStock(after)
            && AddError(after, 1000.0).None?
            && LineStockIssue(Line(CartItem(2, 3, 1000.0), after)).None?
  {
  }

  /**
   * The decrement as intended: the quantity goes down and the stock status is
   * recomputed by the rule of `Product.save`.
   */
  function Restock(p: Product, q: real): (r: Product)
    ensures Tracked(p) ==> r.availableQuantity == p.availableQuantity - q
    ensures Tracked(p) ==> r.stockStatus == StatusFor(r.availableQuantity, p.lowStockThreshold)
    ensures !Tracked(p) ==> r == p
    ensures r.(availableQuantity := p.availableQuantity, stockStatus := p.stockStatus) == p
  {
    if Tracked(p) then
      var left := p.availableQuantity - q;
      p.(availableQuantity := left, stockStatus := StatusFor(left, p.lowStockThreshold))
    else p
  }

  /** With the intended decrement, a product sold down to nothing refuses every further add. */
  lemma RestockSellsOut(p: Product, q: real, more: real)
    requires Tracked(p) && q == p.availableQuantity
    ensures Restock(p, q).stockStatus == SoldOut && !IsInStock(Restock(p, q))
    ensures AddError(Restock(p, q), more).Some?
  {
  }

  /**
   * The product rows after the decrement loop of `process_checkout`, line by line, as
   * the loop writes them: only the quantity of a tracked product is stored.
   */
  function RestockAll(products: map<ProductId, Product>, lines: seq<Line>): map<ProductId, Product>
  {
    if lines == [] then products
    else
      var l := lines[|lines| - 1];
      var before := RestockAll(products, lines[..|lines| - 1]);
      if Tracked(l.product) then before[l.item.product := RestockAsWritten(l.product, l.item.quantity)] else before
  }

  /** The lines were joined from these product rows. */
  predicate JoinedFrom(lines: seq<Line>, products: map<ProductId, Product>)
  {
    forall i | 0 <= i < |lines| :: lines[i].item.product in products && lines[i].product == products[lines[i].item.product]
  }

  predicate DistinctLineProducts(lines: seq<Line>)
  {
    forall i, j | 0 <= i < j < |lines| :: lines[i].item.product != lines[j].item.product
  }

  lemma {:induction false} RestockAllKeys(products: map<ProductId, Product>, lines: seq<Line>)
    requires JoinedFrom(lines, products)
    ensures RestockAll(products, lines).Keys == products.Keys
  {
    if lines != [] {
      var n := |lines|;
      assert JoinedFrom(lines[..n - 1], products);
      RestockAllKeys(products, lines[..n - 1]);
    }
  }

  lemma {:induction false} RestockAllUntouched(products: map<ProductId, Product>, lines: seq<Line>, pid: ProductId)
    requires pid in products
    requires forall i | 0 <= i < |lines| :: lines[i].item.product != pid
    ensures pid in RestockAll(products, lines) && RestockAll(products, lines)[pid] == products[pid]
  {
    if lines != [] {
      var n := |lines|;
      assert lines[n - 1].item.product != pid;
      RestockAllUntouched(products, lines[..n - 1], pid);
    }
  }

  lemma {:induction false} RestockAllAt(products: map<ProductId, Product>, lines: seq<Line>, i: nat)
    requires JoinedFrom(lines, products) && DistinctLineProducts(lines) && i < |lines|
    ensures lines[i].item.product in RestockAll(products, lines)
    ensures RestockAll(products, lines)[lines[i].item.product] == RestockAsWritten(lines[i].product, lines[i].item.quantity)
  {
    var n := |lines|;
    var init := lines[..n - 1];
    assert JoinedFrom(init, products);
    RestockAllKeys(products, init);
    if i < n - 1 {
      assert init[i] == lines[i];
      assert lines[i].item.product != lines[n - 1].item.product;
      RestockAllAt(products, init, i);
    } else {
      if !Tracked(lines[i].product) {
        RestockAllUntouched(products, init, lines[i].item.product);
      }
    }
  }

  /**
   * After a checkout that passed the stock check, each tracked product on the order is
   * down by exactly the ordered quantity and never below zero, with its stored status
   * left as it was; untracked products and products not on the order are unchanged.
   */
  lemma RestockAllEffect(products: map<ProductId, Product>, lines: seq<Line>)
    requires JoinedFrom(lines, products) && DistinctLineProducts(lines) && AllInStock(lines)
    ensures RestockAll(products, lines).Keys == products.Keys
    ensures forall pid | pid in products && (forall i | 0 <= i < |lines| :: lines[i].item.product != pid) ::
      RestockAll(products, lines)[pid] == products[pid]
    ensures forall i | 0 <= i < |lines| ::
      var p := products[lines[i].item.product];
      var p' := RestockAll(products, lines)[lines[i].item.product];
      && p' == RestockAsWritten(p, lines[i].item.quantity)
      && (Tracked(p) ==> p'.availableQuantity == p.availableQuantity - lines[i].item.quantity >= 0.0)
      && p'.stockStatus == p.stockStatus
      && (!Tracked(p) ==> p' == p)
  {
    RestockAllKeys(products, lines);
    forall pid | pid in products && (forall i | 0 <= i < |lines| :: lines[i].item.product != pid)
      ensures RestockAll(products, lines)[pid] == products[pid]
    {
      RestockAllUntouched(products, lines, pid);
    }
    forall i | 0 <= i < |lines|
      ensures RestockAll(products, lines)[lines[i].item.product] == RestockAsWritten(products[lines[i].item.product], lines[i].item.quantity)
    {
      RestockAllAt(products, lines, i);
    }
    forall i | 0 <= i < |lines|
      ensures LineStockIssue(lines[i]).None?
    {
    }
  }

  // ---------------------------------------------------------------------------
  // Placing the order

  /** Why `process_checkout` creates no order. */
  datatype CheckoutError =
    | NoBuyerProfile
    | EmptyCart
    | MissingDeliveryInfo
    | UnknownCounty
    | Stock(issue: StockIssue)
    | DuplicateOrderNumber

  /**
   * The checks of `process_checkout` in their order: buyer profile, non-empty cart, the
   * three delivery fields (blank or absent), a known county, the final stock check,
   * and finally the `unique` constraint on the new order number.
   */
  function CheckoutRejection(
    profile: Option<BuyerId>, lines: seq<Line>, address: string, phone: string,
    county: Option<CountyId>, counties: set<CountyId>, numberTaken: bool): (r: Option<CheckoutError>)
    ensures r.None? <==>
      && profile.Some? && lines != [] && address != "" && phone != ""
      && county.Some? && county.value in counties && AllInStock(lines) && !numberTaken
    ensures r == Some(NoBuyerProfile) <==> profile.None?
    ensures r == Some(EmptyCart) <==> profile.Some? && lines == []
    ensures r == Some(MissingDeliveryInfo) <==>
      profile.Some? && lines != [] && (address == "" || phone == "" || county.None?)
    ensures r == Some(UnknownCounty) <==>
      profile.Some? && lines != [] && address != "" && phone != "" && county.Some? && county.value !in counties
    ensures (r.Some? && r.value.Stock?) <==>
      && profile.Some? && lines != [] && address != "" && phone != ""
      && county.Some? && county.value in counties && !AllInStock(lines)
    ensures r.Some? && r.value.Stock? ==> FirstStockIssue(lines) == Some(r.value.issue)
    ensures r == Some(DuplicateOrderNumber) <==>
      && profile.Some? && lines != [] && address != "" && phone != ""
      && county.Some? && county.value in counties && AllInStock(lines) && numberTaken
  {
    if profile.None? then Some(NoBuyerProfile)
    else if lines == [] then Some(EmptyCart)
    else if address == "" || phone == "" || county.None? then Some(MissingDeliveryInfo)
    else if county.value !in counties then Some(UnknownCounty)
    else if FirstStockIssue(lines).Some? then Some(Stock(FirstStockIssue(lines).value))
    else if numberTaken then Some(DuplicateOrderNumber)
    else None
  }

  /** The order `process_checkout` creates for a cart that passed every check. */
  function PlacedOrder(
    buyer: BuyerId, cartBuyer: Option<BuyerId>, lines: seq<Line>, address: string, phone: string,
    county: CountyId, notes: string, paymentMethod: string, number: string): (o: Order)
    ensures o.orderNumber == number && o.buyer == buyer && o.status == Pending
    ensures o.items == Snapshots(lines)
    ensures var t := CheckoutTotals(cartBuyer, lines);
      o.subtotal == t.subtotal && o.deliveryFee == t.deliveryFee && o.serviceFee == t.serviceFee && o.totalAmount == t.total
  {
    var t := CheckoutTotals(cartBuyer, lines);
    Order(number, buyer, address, phone, county, notes, t.subtotal, t.deliveryFee, t.serviceFee, t.total,
          Pending, paymentMethod, Snapshots(lines))
  }

  lemma SnapshotFarmers(lines: seq<Line>, products: map<ProductId, Product>)
    requires JoinedFrom(lines, products)
    ensures forall it | it in Snapshots(lines) :: it.product in products
    ensures (set it | it in Snapshots(lines) :: products[it.product].farmer) == FarmerSet(lines)
  {
    var items := Snapshots(lines);
    forall it | it in items ensures it.product in products {
      var i :| 0 <= i < |items| && items[i] == it;
    }
    forall f | f in FarmerSet(lines) ensures f in (set it | it in items :: products[it.product].farmer) {
      var l :| l in lines && l.product.farmer == f;
      var i :| 0 <= i < |lines| && lines[i] == l;
      assert items[i] in items;
    }
    forall f | f in (set it | it in items :: products[it.product].farmer) ensures f in FarmerSet(lines) {
      var it :| it in items && products[it.product].farmer == f;
      var i :| 0 <= i < |items| && items[i] == it;
      assert lines[i] in lines;
    }
  }

  /**
   * A placed order is consistent: its lines add up to its subtotal and to the cart's
   * item count, its total is subtotal plus delivery plus 5%, and for a cart with a buyer
   * its delivery fee is the fee for the order's distinct farmers.
   */
  lemma PlacedOrderConsistent(
    buyer: BuyerId, cartBuyer: Option<BuyerId>, lines: seq<Line>, products: map<ProductId, Product>,
    address: string, phone: string, county: CountyId, notes: string, paymentMethod: string, number: string)
    requires JoinedFrom(lines, products)
    ensures var o := PlacedOrder(buyer, cartBuyer, lines, address, phone, county, notes, paymentMethod, number);
      && |o.items| == |lines|
      && SumLineTotals(o.items) == o.subtotal
      && OrderTotalItems(o.items) == TotalItems(lines)
      && o.serviceFee == o.subtotal * ServiceFeeRate
      && o.totalAmount == o.subtotal + o.deliveryFee + o.serviceFee
      && (forall it | it in o.items :: it.product in products)
      && (cartBuyer.Some? ==> o.deliveryFee == FeeForFarmers(|UniqueFarmers(o, products)|))
  {
    SnapshotsTotals(lines);
    SnapshotFarmers(lines, products);
  }

  /** The scenario of a discounted product: 5 units at 80 with one farmer cost 400 + 200 + 20. */
  lemma DiscountedCheckoutScenario(buyer: BuyerId, farmer: FarmerId)
    ensures var p := Product(farmer, 1, "Tomatoes", "tomatoes", "FARM-12345678", 100.0, Some(80.0), 1.0, 50.0, 10.0,
                             "kg", Available, true);
            var lines := [Line(CartItem(1, 9, 5.0), p)];
            var t := CheckoutTotals(Some(buyer), lines);
            && t.subtotal == 400.0 && t.deliveryFee == 200.0 && t.serviceFee == 20.0 && t.total == 620.0
            && RestockAsWritten(p, 5.0).availableQuantity == 45.0 && RestockAsWritten(p, 5.0).stockStatus == Available
  {
    var p := Product(farmer, 1, "Tomatoes", "tomatoes", "FARM-12345678", 100.0, Some(80.0), 1.0, 50.0, 10.0,
                     "kg", Available, true);
    var lines := [Line(CartItem(1, 9, 5.0), p)];
    assert lines[..0] == [];
    assert TotalAmount(lines) == 400.0;
    assert FarmerSet(lines) == {farmer} by {
      assert lines[0] in lines;
    }
    assert |FarmerSet(lines)| == 1;
  }
}
