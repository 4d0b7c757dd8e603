/**
 * Carts and cart items of farmers_app/models.py (`Cart`, `CartItem`) and the cart
 * aggregation the views in farmers_app/views.py rely on: totals, the delivery-fee
 * estimate, the per-farmer grouping of `cart_detail` and `checkout`, and what
 * `add_to_cart`, `update_cart_item` and `remove_cart_item` do to a cart's rows.
 */
module Carts {
  import opened Wrappers
  import opened Catalog

  type ItemId = nat
  type CartId = nat
  type BuyerId = nat

  datatype CartItem = CartItem(id: ItemId, product: ProductId, quantity: real)

  /** A cart with its item rows, in row order. */
  datatype Cart = Cart(sessionId: string, buyer: Option<BuyerId>, items: seq<CartItem>)

  /** A cart item joined with its product row, as `select_related('product')` loads it. */
  datatype Line = Line(item: CartItem, product: Product)

  /** Every item refers to a product row. */
  predicate Stocked(items: seq<CartItem>, products: map<ProductId, Product>)
  {
    forall i | 0 <= i < |items| :: items[i].product in products
  }

  /** The items joined with their products. */
  function Lines(items: seq<CartItem>, products: map<ProductId, Product>): (lines: seq<Line>)
    requires Stocked(items, products)
    ensures |lines| == |items|
    ensures forall i | 0 <= i < |items| :: lines[i].item == items[i] && lines[i].product == products[items[i].product]
  {
    seq(|items|, i requires 0 <= i < |items| => Line(items[i], products[items[i].product]))
  }

  /** `CartItem.total_price`. */
  function LineTotal(l: Line): (r: real)
    ensures l.item.quantity >= 0.0 && SellingPrice(l.product) >= 0.0 ==> r >= 0.0
    ensures l.item.quantity == 0.0 ==> r == 0.0
  {
    l.item.quantity * SellingPrice(l.product)
  }

  /** `Cart.total_items`: the sum of the quantities, 0 for an empty cart. */
  function TotalItems(lines: seq<Line>): (n: real)
    ensures (forall i | 0 <= i < |lines| :: lines[i].item.quantity >= 0.0) ==> n >= 0.0
    ensures (forall i | 0 <= i < |lines| :: lines[i].item.quantity > 0.0) && lines != [] ==> n > 0.0
  {
    if lines == [] then 0.0 else TotalItems(lines[..|lines| - 1]) + lines[|lines| - 1].item.quantity
  }

  /** `Cart.total_amount`: the sum of quantity times selling price, 0 for an empty cart. */
  function TotalAmount(lines: seq<Line>): (r: real)
    ensures |lines| == 1 ==> r == LineTotal(lines[0])
  {
    if lines == [] then 0.0 else TotalAmount(lines[..|lines| - 1]) + LineTotal(lines[|lines| - 1])
  }

  /** The total of a cart split in two is the sum of the totals of the parts. */
  lemma {:induction false} TotalAmountAppend(a: seq<Line>, b: seq<Line>)
    ensures TotalAmount(a + b) == TotalAmount(a) + TotalAmount(b)
  {
    if b != [] {
      var ab := a + b;
      assert ab[..|ab| - 1] == a + b[..|b| - 1];
      TotalAmountAppend(a, b[..|b| - 1]);
    } else {
      assert a + b == a;
    }
  }

  /** The row order of the query does not matter: any permutation of the lines has the same total. */
  lemma {:induction false} TotalAmountPermutation(a: seq<Line>, b: seq<Line>)
    requires multiset(a) == multiset(b)
    ensures TotalAmount(a) == TotalAmount(b)
    decreases |a|
  {
    if a == [] {
      assert |b| == |multiset(b)| == 0;
    } else {
      var x := a[|a| - 1];
      var rest := a[..|a| - 1];
      assert a == rest + [x];
      assert x in multiset(b);
      var k :| 0 <= k < |b| && b[k] == x;
      var other := b[..k] + b[k + 1..];
      RemoveAtMultiset(b, k);
      assert multiset(rest) == multiset(a) - multiset{x};
      TotalAmountPermutation(rest, other);
      TotalAmountRemoveAt(b, k);
    }
  }

  lemma RemoveAtMultiset(b: seq<Line>, k: nat)
    requires k < |b|
    ensures multiset(b[..k] + b[k + 1..]) == multiset(b) - multiset{b[k]}
  {
    assert b == b[..k] + [b[k]] + b[k + 1..];
  }

  /** Taking line `k` out of the cart takes its total out of the cart total. */
  lemma TotalAmountRemoveAt(b: seq<Line>, k: nat)
    requires k < |b|
    ensures TotalAmount(b) == TotalAmount(b[..k] + b[k + 1..]) + LineTotal(b[k])
  {
    var x := b[k];
    assert b == b[..k] + [x] + b[k + 1..];
    TotalAmountAppend(b[..k] + [x], b[k + 1..]);
    TotalAmountAppend(b[..k], [x]);
    TotalAmountAppend(b[..k], b[k + 1..]);
    assert TotalAmount([x]) == LineTotal(x) by {
      assert [x][..0] == [];
    }
  }

  /** With non-negative quantities and prices the cart total is non-negative. */
  lemma {:induction false} TotalAmountNonNegative(lines: seq<Line>)
    requires forall l | l in lines :: l.item.quantity >= 0.0 && SellingPrice(l.product) >= 0.0
    ensures TotalAmount(lines) >= 0.0
  {
    if lines != [] {
      var last := lines[|lines| - 1];
      assert last in lines;
      TotalAmountNonNegative(lines[..|lines| - 1]);
    }
  }

  /** The distinct farmers whose products are in the cart. */
  function FarmerSet(lines: seq<Line>): set<FarmerId>
  {
    set l | l in lines :: l.product.farmer
  }

  const BaseDeliveryFee: real := 200.0
  const ExtraPickupFee: real := 100.0

  /** The delivery fee for a cart with `n` distinct farmers: one base fee plus one surcharge per extra pickup. */
  function FeeForFarmers(n: nat): (fee: real)
    ensures fee >= BaseDeliveryFee
    ensures n >= 1 ==> fee == BaseDeliveryFee + ExtraPickupFee * (n - 1) as real
    ensures n == 0 ==> fee == BaseDeliveryFee
  {
    if n > 1 then BaseDeliveryFee + ExtraPickupFee * (n - 1) as real else BaseDeliveryFee
  }

  /** More farmers never make delivery cheaper. */
  lemma FeeMonotone(n: nat, m: nat)
    requires n <= m
    ensures FeeForFarmers(n) <= FeeForFarmers(m)
  {
  }

  /** `Cart.delivery_fee_estimate`: 0 for a cart without a buyer, else the fee for its farmers. */
  function DeliveryFeeEstimate(buyer: Option<BuyerId>, lines: seq<Line>): (fee: real)
    ensures buyer.None? ==> fee == 0.0
    ensures buyer.Some? ==> fee == FeeForFarmers(|FarmerSet(lines)|) && fee >= BaseDeliveryFee
    ensures fee >= 0.0
  {
    if buyer.None? then 0.0
    else FeeForFarmers(|FarmerSet(lines)|)
  }

  lemma FarmerSetSnoc(lines: seq<Line>, l: Line)
    ensures FarmerSet(lines + [l]) == FarmerSet(lines) + {l.product.farmer}
  {
    forall f | f in FarmerSet(lines + [l])
      ensures f in FarmerSet(lines) + {l.product.farmer}
    {
      var m :| m in lines + [l] && m.product.farmer == f;
      if m != l {
        assert m in lines;
      }
    }
    forall f | f in FarmerSet(lines)
      ensures f in FarmerSet(lines + [l])
    {
      var m :| m in lines && m.product.farmer == f;
      assert m in lines + [l];
    }
    assert l in lines + [l];
  }

  /**
   * One more line raises the estimate by one surcharge exactly when it brings a new
   * farmer into a non-empty cart, and leaves it unchanged otherwise.
   */
  lemma DeliveryFeeAddLine(buyer: BuyerId, lines: seq<Line>, l: Line)
    requires lines != []
    ensures l.product.farmer in FarmerSet(lines) ==>
      DeliveryFeeEstimate(Some(buyer), lines + [l]) == DeliveryFeeEstimate(Some(buyer), lines)
    ensures l.product.farmer !in FarmerSet(lines) ==>
      DeliveryFeeEstimate(Some(buyer), lines + [l]) == DeliveryFeeEstimate(Some(buyer), lines) + ExtraPickupFee
  {
    FarmerSetSnoc(lines, l);
    if l.product.farmer in FarmerSet(lines) {
      assert FarmerSet(lines) + {l.product.farmer} == FarmerSet(lines);
    }
    assert lines[0].product.farmer in FarmerSet(lines);
  }

  // ---------------------------------------------------------------------------
  // Grouping by farmer (`farmers_items` in cart_detail and checkout)

  /** One entry of `farmers_items`: a farmer, their lines in cart order, and the running subtotal. */
  datatype FarmerGroup = FarmerGroup(farmer: FarmerId, lines: seq<Line>, subtotal: real)

  /** The lines of the cart whose product belongs to farmer `f`, in cart order. */
  function OfFarmer(lines: seq<Line>, f: FarmerId): seq<Line>
  {
    if lines == [] then []
    else OfFarmer(lines[..|lines| - 1], f) + (if lines[|lines| - 1].product.farmer == f then [lines[|lines| - 1]] else [])
  }

  function SumSubtotals(groups: seq<FarmerGroup>): real
  {
    if groups == [] then 0.0 else SumSubtotals(groups[..|groups| - 1]) + groups[|groups| - 1].subtotal
  }

  function GroupFarmers(groups: seq<FarmerGroup>): set<FarmerId>
  {
    set g | g in groups :: g.farmer
  }

  predicate DistinctFarmers(groups: seq<FarmerGroup>)
  {
    forall i, j | 0 <= i < j < |groups| :: groups[i].farmer != groups[j].farmer
  }

  /** Position of farmer `f`'s group (`farmer_id in farmers_items`), or -1. */
  function GroupIndex(groups: seq<FarmerGroup>, f: FarmerId): (k: int)
    ensures -1 <= k < |groups|
    ensures k >= 0 ==> groups[k].farmer == f
    ensures k == -1 <==> f !in GroupFarmers(groups)
  {
    if groups == [] then -1
    else if groups[|groups| - 1].farmer == f then |groups| - 1
    else
      var k := GroupIndex(groups[..|groups| - 1], f);
      assert f in GroupFarmers(groups[..|groups| - 1]) <==> f in GroupFarmers(groups) by {
        assert groups == groups[..|groups| - 1] + [groups[|groups| - 1]];
      }
      k
  }

  lemma {:induction false} SumSubtotalsUpdate(groups: seq<FarmerGroup>, k: nat, g: FarmerGroup)
    requires k < |groups|
    ensures SumSubtotals(groups[k := g]) == SumSubtotals(groups) - groups[k].subtotal + g.subtotal
  {
    var n := |groups|;
    if k < n - 1 {
      assert groups[k := g][..n - 1] == groups[..n - 1][k := g];
      SumSubtotalsUpdate(groups[..n - 1], k, g);
    } else {
      assert groups[k := g][..n - 1] == groups[..n - 1];
    }
  }

  lemma SumSubtotalsAppend(groups: seq<FarmerGroup>, g: FarmerGroup)
    ensures SumSubtotals(groups + [g]) == SumSubtotals(groups) + g.subtotal
  {
    assert (groups + [g])[..|groups|] == groups;
  }

  lemma {:induction false} DistinctFarmersCount(groups: seq<FarmerGroup>)
    requires DistinctFarmers(groups)
    ensures |GroupFarmers(groups)| == |groups|
  {
    if groups != [] {
      var n := |groups|;
      var init := groups[..n - 1];
      DistinctFarmersCount(init);
      assert GroupFarmers(groups) == GroupFarmers(init) + {groups[n - 1].farmer} by {
        assert groups == init + [groups[n - 1]];
      }
      forall g | g in init
        ensures g.farmer != groups[n - 1].farmer
      {
        var i :| 0 <= i < n - 1 && init[i] == g;
        assert groups[i] == g;
      }
    }
  }

  /** Groups for the lines `s` seen so far, possibly with an empty group just opened. */
  predicate PartialGroups(s: seq<Line>, groups: seq<FarmerGroup>)
  {
    && DistinctFarmers(groups)
    && (forall g | g in groups :: g.lines == OfFarmer(s, g.farmer) && g.subtotal == TotalAmount(g.lines))
    && SumSubtotals(groups) == TotalAmount(s)
  }

  /** The per-farmer view of a cart the loop in `cart_detail` and `checkout` builds. */
  predicate GroupsOf(s: seq<Line>, groups: seq<FarmerGroup>)
  {
    PartialGroups(s, groups) && GroupFarmers(groups) == FarmerSet(s)
  }

  lemma GroupFarmersSnoc(groups: seq<FarmerGroup>, g: FarmerGroup)
    ensures GroupFarmers(groups + [g]) == GroupFarmers(groups) + {g.farmer}
  {
    forall x | x in GroupFarmers(groups + [g]) ensures x in GroupFarmers(groups) + {g.farmer} {
      var h :| h in groups + [g] && h.farmer == x;
      if h != g { assert h in groups; }
    }
    forall x | x in GroupFarmers(groups) ensures x in GroupFarmers(groups + [g]) {
      var h :| h in groups && h.farmer == x;
      assert h in groups + [g];
    }
    assert g in groups + [g];
  }

  lemma GroupFarmersUpdate(groups: seq<FarmerGroup>, k: nat, g: FarmerGroup)
    requires k < |groups| && g.farmer == groups[k].farmer
    ensures GroupFarmers(groups[k := g]) == GroupFarmers(groups)
  {
    var next := groups[k := g];
    forall x | x in GroupFarmers(next) ensures x in GroupFarmers(groups) {
      var h :| h in next && h.farmer == x;
      var j :| 0 <= j < |next| && next[j] == h;
      assert groups[j] in groups;
    }
    forall x | x in GroupFarmers(groups) ensures x in GroupFarmers(next) {
      var h :| h in groups && h.farmer == x;
      var j :| 0 <= j < |groups| && groups[j] == h;
      assert next[j] in next;
    }
  }

  lemma OfFarmerAbsentFromGroups(s: seq<Line>, groups: seq<FarmerGroup>, f: FarmerId)
    requires GroupsOf(s, groups) && f !in GroupFarmers(groups)
    ensures PartialGroups(s, groups + [FarmerGroup(f, [], 0.0)])
    ensures GroupFarmers(groups + [FarmerGroup(f, [], 0.0)]) == FarmerSet(s) + {f}
  {
    var g := FarmerGroup(f, [], 0.0);
    var groups' := groups + [g];
    OfFarmerAbsent(s, f);
    GroupFarmersSnoc(groups, g);
    SumSubtotalsAppend(groups, g);
    forall a, b | 0 <= a < b < |groups'| ensures groups'[a].farmer != groups'[b].farmer {
      if b == |groups| {
        assert groups'[a] in groups;
      }
    }
    forall h | h in groups' ensures h.lines == OfFarmer(s, h.farmer) && h.subtotal == TotalAmount(h.lines) {
      if h != g { assert h in groups; }
    }
  }

  /** The group grown by `line`. */
  function Grown(g: FarmerGroup, line: Line): FarmerGroup
  {
    g.(lines := g.lines + [line], subtotal := g.subtotal + LineTotal(line))
  }

  /** After adding `line` to its farmer's group, every group holds exactly its farmer's lines. */
  lemma GroupLinesAfterAdd(s: seq<Line>, line: Line, groups: seq<FarmerGroup>, k: nat)
    requires PartialGroups(s, groups)
    requires k < |groups| && groups[k].farmer == line.product.farmer
    ensures forall h | h in groups[k := Grown(groups[k], line)] ::
      h.lines == OfFarmer(s + [line], h.farmer) && h.subtotal == TotalAmount(h.lines)
  {
    var next := groups[k := Grown(groups[k], line)];
    var pre := s + [line];
    assert pre[..|s|] == s;
    assert groups[k] in groups;
    assert TotalAmount(groups[k].lines + [line]) == groups[k].subtotal + LineTotal(line) by {
      assert (groups[k].lines + [line])[..|groups[k].lines|] == groups[k].lines;
    }
    forall h | h in next ensures h.lines == OfFarmer(pre, h.farmer) && h.subtotal == TotalAmount(h.lines) {
      var j :| 0 <= j < |next| && next[j] == h;
      if j != k {
        assert groups[j] in groups;
      }
    }
  }

  /** Growing one group changes no group's farmer. */
  lemma GrowKeepsFarmers(groups: seq<FarmerGroup>, k: nat, line: Line)
    requires k < |groups| && DistinctFarmers(groups)
    ensures DistinctFarmers(groups[k := Grown(groups[k], line)])
    ensures GroupFarmers(groups[k := Grown(groups[k], line)]) == GroupFarmers(groups)
  {
    var next := groups[k := Grown(groups[k], line)];
    assert forall j | 0 <= j < |next| :: next[j].farmer == groups[j].farmer;
    GroupFarmersUpdate(groups, k, Grown(groups[k], line));
  }

  /** Growing one group by `line` adds the line's total to the sum of the subtotals. */
  lemma GrowAddsSubtotal(s: seq<Line>, groups: seq<FarmerGroup>, k: nat, line: Line)
    requires k < |groups| && SumSubtotals(groups) == TotalAmount(s)
    ensures SumSubtotals(groups[k := Grown(groups[k], line)]) == TotalAmount(s + [line])
  {
    SumSubtotalsUpdate(groups, k, Grown(groups[k], line));
    assert (s + [line])[..|s|] == s;
  }

  /** Adding `line` to the group of its farmer keeps the grouping exact. */
  lemma GroupAddLine(s: seq<Line>, line: Line, groups: seq<FarmerGroup>, k: nat)
    requires PartialGroups(s, groups)
    requires GroupFarmers(groups) == FarmerSet(s) + {line.product.farmer}
    requires k < |groups| && groups[k].farmer == line.product.farmer
    ensures GroupsOf(s + [line], groups[k := Grown(groups[k], line)])
  {
    GroupLinesAfterAdd(s, line, groups, k);
    FarmerSetSnoc(s, line);
    GrowKeepsFarmers(groups, k, line);
    GrowAddsSubtotal(s, groups, k, line);
  }

  lemma {:induction false} OfFarmerAbsent(lines: seq<Line>, f: FarmerId)
    requires f !in FarmerSet(lines)
    ensures OfFarmer(lines, f) == []
  {
    if lines != [] {
      var last := lines[|lines| - 1];
      assert last in lines;
      assert FarmerSet(lines[..|lines| - 1]) <= FarmerSet(lines) by {
        forall x | x in FarmerSet(lines[..|lines| - 1]) ensures x in FarmerSet(lines) {
          var m :| m in lines[..|lines| - 1] && m.product.farmer == x;
          assert m in lines;
        }
      }
      OfFarmerAbsent(lines[..|lines| - 1], f);
    }
  }

  /**
   * The `farmers_items` loop: one group per distinct farmer, holding that farmer's
   * lines; the group subtotals add up to the cart total.
   */
  method GroupByFarmer(lines: seq<Line>) returns (groups: seq<FarmerGroup>)
    ensures GroupsOf(lines, groups)
    ensures |groups| == |FarmerSet(lines)|
  {
    groups := [];
    var i := 0;
    while i < |lines|
      invariant 0 <= i <= |lines|
      invariant GroupsOf(lines[..i], groups)
    {
      assert lines[..i + 1] == lines[..i] + [lines[i]];
      groups := AddToGroup(lines[..i], groups, lines[i]);
      i := i + 1;
    }
    assert lines[..i] == lines;
    DistinctFarmersCount(groups);
  }

  /** One step of the `farmers_items` loop: open the farmer's group if needed, then add the line to it. */
  method AddToGroup(ghost seen: seq<Line>, groups: seq<FarmerGroup>, line: Line) returns (groups': seq<FarmerGroup>)
    requires GroupsOf(seen, groups)
    ensures GroupsOf(seen + [line], groups')
  {
    var f := line.product.farmer;
    var k := GroupIndex(groups, f);
    groups' := groups;
    if k < 0 {
      OfFarmerAbsentFromGroups(seen, groups, f);
      groups' := groups + [FarmerGroup(f, [], 0.0)];
      k := |groups'| - 1;
    }
    GroupAddLine(seen, line, groups', k);
    groups' := groups'[k := Grown(groups'[k], line)];
  }

  // ---------------------------------------------------------------------------
  // Row changes of add_to_cart, update_cart_item and remove_cart_item

  /** The `ValidationError`s of the cart views, and the lookups that fail with a 404. */
  datatype CartError =
    | ProductUnavailable
    | QuantityNotPositive
    | BelowMinimumOrder(minimum: real)
    | ExceedsAvailable(available: real)
    | OutOfStock
    | ItemNotFound

  /** The quantity checks `add_to_cart` and `update_cart_item` share, in their order. */
  function QuantityError(p: Product, q: real): (r: Option<CartError>)
    ensures r.None? <==> 0.0 < q && p.minimumOrder <= q && (p.availableQuantity > 0.0 ==> q <= p.availableQuantity)
    ensures r == Some(QuantityNotPositive) <==> q <= 0.0
    ensures r == Some(BelowMinimumOrder(p.minimumOrder)) <==> 0.0 < q < p.minimumOrder
    ensures r == Some(ExceedsAvailable(p.availableQuantity)) <==>
      0.0 < q && p.minimumOrder <= q && 0.0 < p.availableQuantity < q
  {
    if q <= 0.0 then Some(QuantityNotPositive)
    else if q < p.minimumOrder then Some(BelowMinimumOrder(p.minimumOrder))
    else if p.availableQuantity > 0.0 && q > p.availableQuantity then Some(ExceedsAvailable(p.availableQuantity))
    else None
  }

  /** The validation of `add_to_cart`: the quantity checks, then the in-stock check. */
  function AddError(p: Product, q: real): (r: Option<CartError>)
    ensures r.None? <==> QuantityError(p, q).None? && IsInStock(p)
    ensures QuantityError(p, q).Some? ==> r == QuantityError(p, q)
    ensures r == Some(OutOfStock) <==> QuantityError(p, q).None? && !IsInStock(p)
  {
    var e := QuantityError(p, q);
    if e.Some? then e
    else if !IsInStock(p) then Some(OutOfStock)
    else None
  }

  /** `unique_together = ('cart', 'product')`: no product has two rows in a cart. */
  predicate UniqueProducts(items: seq<CartItem>)
  {
    forall i, j | 0 <= i < j < |items| :: items[i].product != items[j].product
  }

  /** Item ids are primary keys. */
  predicate DistinctIds(items: seq<CartItem>)
  {
    forall i, j | 0 <= i < j < |items| :: items[i].id != items[j].id
  }

  /** The row of product `pid` (`get_or_create(cart=cart, product=product)`), or -1. */
  function ProductIndex(items: seq<CartItem>, pid: ProductId): (k: int)
    ensures -1 <= k < |items|
    ensures k >= 0 ==> items[k].product == pid
    ensures k == -1 <==> forall i | 0 <= i < |items| :: items[i].product != pid
  {
    if items == [] then -1
    else if items[0].product == pid then 0
    else
      var k := ProductIndex(items[1..], pid);
      if k == -1 then -1 else k + 1
  }

  /** The row with primary key `id` (`get_object_or_404(CartItem, id=item_id, cart=cart)`), or -1. */
  function ItemIndex(items: seq<CartItem>, id: ItemId): (k: int)
    ensures -1 <= k < |items|
    ensures k >= 0 ==> items[k].id == id
    ensures k == -1 <==> forall i | 0 <= i < |items| :: items[i].id != id
  {
    if items == [] then -1
    else if items[0].id == id then 0
    else
      var k := ItemIndex(items[1..], id);
      if k == -1 then -1 else k + 1
  }

  /** The merge path's cap: a tracked product's quantity is cut down to what is available. */
  function Clamp(total: real, available: real): (r: real)
    ensures available > 0.0 ==> r <= available
    ensures r == total || r == available
    ensures (available <= 0.0 || total <= available) ==> r == total
  {
    if available > 0.0 && total > available then available else total
  }

  /**
   * The rows after a validated `add_to_cart` of `q` units of product `pid`: a new row
   * `freshId` with the quantity asked for, or the existing row grown by `q` and clamped.
   */
  function AddItem(items: seq<CartItem>, pid: ProductId, p: Product, q: real, freshId: ItemId): (r: seq<CartItem>)
    ensures ProductIndex(items, pid) == -1 ==> r == items + [CartItem(freshId, pid, q)]
    ensures ProductIndex(items, pid) >= 0 ==>
      var k := ProductIndex(items, pid);
      && |r| == |items|
      && r[k] == items[k].(quantity := Clamp(items[k].quantity + q, p.availableQuantity))
      && (forall j | 0 <= j < |items| && j != k :: r[j] == items[j])
  {
    var k := ProductIndex(items, pid);
    if k < 0 then items + [CartItem(freshId, pid, q)]
    else items[k := items[k].(quantity := Clamp(items[k].quantity + q, p.availableQuantity))]
  }

  /**
   * Adding never duplicates a row: afterwards the product has exactly one row, every
   * other row is untouched, and a tracked product's row holds no more than is available.
   */
  lemma AddItemMerges(items: seq<CartItem>, pid: ProductId, p: Product, q: real, freshId: ItemId)
    requires UniqueProducts(items)
    requires AddError(p, q).None?
    ensures var r := AddItem(items, pid, p, q, freshId);
      && UniqueProducts(r)
      && ProductIndex(r, pid) >= 0
      && (p.availableQuantity > 0.0 ==> r[ProductIndex(r, pid)].quantity <= p.availableQuantity)
      && (forall i | 0 <= i < |items| && items[i].product != pid :: r[i] == items[i])
  {
    var r := AddItem(items, pid, p, q, freshId);
    var k := ProductIndex(r, pid);
    if ProductIndex(items, pid) == -1 {
      assert r[|items|].product == pid;
      assert k == |items|;
    } else {
      assert r[ProductIndex(items, pid)].product == pid;
      assert k == ProductIndex(items, pid);
    }
  }

  /** Two adds of the same new product give one row holding both quantities, up to the stock cap. */
  lemma AddTwiceMerges(items: seq<CartItem>, pid: ProductId, p: Product, q1: real, q2: real, id1: ItemId, id2: ItemId)
    requires ProductIndex(items, pid) == -1
    ensures AddItem(AddItem(items, pid, p, q1, id1), pid, p, q2, id2)
      == items + [CartItem(id1, pid, Clamp(q1 + q2, p.availableQuantity))]
  {
    var once := AddItem(items, pid, p, q1, id1);
    assert once[|items|].product == pid;
    assert ProductIndex(once, pid) == |items|;
  }

  /**
   * `update_cart_item`: the row must belong to the cart, the new quantity passes the
   * three quantity checks (no in-stock check), and then replaces the old one.
   */
  function UpdateItem(items: seq<CartItem>, products: map<ProductId, Product>, id: ItemId, q: real): (r: Result<seq<CartItem>, CartError>)
    requires Stocked(items, products)
    ensures r == Failure(ItemNotFound) <==> ItemIndex(items, id) == -1
    ensures ItemIndex(items, id) >= 0 ==>
      var k := ItemIndex(items, id);
      var p := products[items[k].product];
      && (r.Failure? <==> QuantityError(p, q).Some?)
      && (r.Failure? ==> r.error == QuantityError(p, q).value)
      && (r.Success? ==>
            && |r.value| == |items|
            && r.value[k] == items[k].(quantity := q)
            && (p.availableQuantity > 0.0 ==> r.value[k].quantity <= p.availableQuantity)
            && (forall j | 0 <= j < |items| && j != k :: r.value[j] == items[j]))
  {
    var k := ItemIndex(items, id);
    if k < 0 then Failure(ItemNotFound)
    else
      var e := QuantityError(products[items[k].product], q);
      if e.Some? then Failure(e.value)
      else Success(items[k := items[k].(quantity := q)])
  }

  /** `remove_cart_item`: the named row of this cart is deleted, the others stay in order. */
  function RemoveItem(items: seq<CartItem>, id: ItemId): (r: Result<seq<CartItem>, CartError>)
    ensures r.Failure? <==> ItemIndex(items, id) == -1
    ensures r.Failure? ==> r.error == ItemNotFound
    ensures r.Success? ==>
      var k := ItemIndex(items, id);
      && r.value == items[..k] + items[k + 1..]
      && multiset(r.value) + multiset{items[k]} == multiset(items)
      && (DistinctIds(items) ==> ItemIndex(r.value, id) == -1)
  {
    var k := ItemIndex(items, id);
    if k < 0 then Failure(ItemNotFound)
    else
      assert items == items[..k] + [items[k]] + items[k + 1..];
      Success(items[..k] + items[k + 1..])
  }
}
