/**
 * The read-only views over the cart: `cart_detail`, the checkout page of `checkout`,
 * and the recently-viewed list `product_detail` keeps in the session
 * (farmers_app/views.py).
 */
module Pages {
  import opened Wrappers
  import opened Catalog
  import opened Carts
  import opened Orders

  /** What `cart_detail` renders. */
  datatype CartPage = CartPage(
    groups: seq<FarmerGroup>,
    subtotal: real,
    deliveryFeeEstimate: real,
    totalEstimate: real,
    totalFarmers: nat)

  /**
   * `cart_detail`: the lines grouped by farmer with per-farmer subtotals, the cart
   * total, the delivery estimate and their sum.
   */
  method CartDetail(cart: Cart, products: map<ProductId, Product>) returns (page: CartPage)
    requires Stocked(cart.items, products)
    ensures var lines := Lines(cart.items, products);
      && GroupFarmers(page.groups) == FarmerSet(lines) && DistinctFarmers(page.groups)
      && (forall g | g in page.groups :: g.lines == OfFarmer(lines, g.farmer) && g.subtotal == TotalAmount(g.lines))
      && page.subtotal == TotalAmount(lines) == SumSubtotals(page.groups)
      && page.deliveryFeeEstimate == DeliveryFeeEstimate(cart.buyer, lines)
      && page.totalFarmers == |FarmerSet(lines)|
    ensures page.totalEstimate == page.subtotal + page.deliveryFeeEstimate
    ensures page.totalEstimate >= page.subtotal
    ensures cart.buyer.Some? && page.totalFarmers >= 1 ==>
      page.deliveryFeeEstimate == BaseDeliveryFee + (page.totalFarmers - 1) as real * ExtraPickupFee
  {
    var lines := Lines(cart.items, products);
    var groups := GroupByFarmer(lines);
    var subtotal := TotalAmount(lines);
    var fee := DeliveryFeeEstimate(cart.buyer, lines);
    page := CartPage(groups, subtotal, fee, subtotal + fee, |groups|);
  }

  /** Why the checkout page sends the buyer elsewhere. */
  datatype PageError = ProfileRequired | CartEmpty | ItemsOutOfStock(issues: seq<StockIssue>)

  /** What the checkout page renders. */
  datatype CheckoutSummary = CheckoutSummary(groups: seq<FarmerGroup>, totals: Totals)

  /**
   * `checkout`: a buyer profile and a non-empty cart are required; every line is
   * checked and all the failing ones are reported together; otherwise the totals
   * with the 5% service fee and the per-farmer groups are shown.
   */
  method CheckoutPage(profile: Option<BuyerId>, cart: Cart, products: map<ProductId, Product>)
    returns (r: Result<CheckoutSummary, PageError>)
    requires Stocked(cart.items, products)
    ensures var lines := Lines(cart.items, products);
      && (profile.None? ==> r == Failure(ProfileRequired))
      && (profile.Some? && lines == [] ==> r == Failure(CartEmpty))
      && (profile.Some? && lines != [] && !AllInStock(lines) ==> r == Failure(ItemsOutOfStock(StockIssues(lines))))
      && (r.Success? <==> profile.Some? && lines != [] && AllInStock(lines))
      && (r.Success? ==>
            && r.value.totals == CheckoutTotals(cart.buyer, lines)
            && GroupsOf(lines, r.value.groups)
            && (forall g | g in r.value.groups :: g.lines == OfFarmer(lines, g.farmer) && g.subtotal == TotalAmount(g.lines))
            && SumSubtotals(r.value.groups) == r.value.totals.subtotal)
  {
    if profile.None? {
      return Failure(ProfileRequired);
    }
    var lines := Lines(cart.items, products);
    if lines == [] {
      return Failure(CartEmpty);
    }
    var issues := [];
    var i := 0;
    while i < |lines|
      invariant 0 <= i <= |lines|
      invariant issues == StockIssues(lines[..i])
    {
      var e := LineStockIssue(lines[i]);
      assert lines[..i + 1][..i] == lines[..i];
      if e.Some? {
        issues := issues + [e.value];
      }
      i := i + 1;
    }
    assert lines[..i] == lines;
    if issues != [] {
      return Failure(ItemsOutOfStock(issues));
    }
    var totals := CheckoutTotals(cart.buyer, lines);
    var groups := GroupByFarmer(lines);
    r := Success(CheckoutSummary(groups, totals));
  }

  // ---------------------------------------------------------------------------
  // Recently viewed products
  // ---------------------------------------------------------------------------

  /** How many product ids the session keeps. */
  const RecentlyViewedLimit: nat := 10

  predicate Distinct(ids: seq<ProductId>)
  {
    forall i, j | 0 <= i < j < |ids| :: ids[i] != ids[j]
  }

  /** The position of the first occurrence of `id`. */
  function FirstIndex(ids: seq<ProductId>, id: ProductId): (k: nat)
    requires id in ids
    ensures k < |ids| && ids[k] == id && id !in ids[..k]
  {
    if ids[0] == id then 0 else 1 + FirstIndex(ids[1..], id)
  }

  /** Python's `list.remove`: the first occurrence of `id` is dropped (the view calls it only when `id` is present). */
  function RemoveFirst(ids: seq<ProductId>, id: ProductId): (r: seq<ProductId>)
    ensures id !in ids ==> r == ids
    ensures id in ids ==> r == ids[..FirstIndex(ids, id)] + ids[FirstIndex(ids, id) + 1..]
    ensures id in ids ==> |r| == |ids| - 1 && multiset(r) + multiset{id} == multiset(ids)
    ensures forall x | x in r :: x in ids
  {
    if ids == [] then []
    else if ids[0] == id then
      assert ids == [ids[0]] + ids[1..];
      ids[1..]
    else
      assert ids == [ids[0]] + ids[1..];
      var rest := RemoveFirst(ids[1..], id);
      assert id in ids[1..] ==>
        [ids[0]] + rest == ids[..FirstIndex(ids, id)] + ids[FirstIndex(ids, id) + 1..];
      [ids[0]] + rest
  }

  /** Every occurrence of `id` filtered out, the order of the others kept. */
  function Without(ids: seq<ProductId>, id: ProductId): (r: seq<ProductId>)
    ensures forall x :: x in r <==> x in ids && x != id
    ensures |r| <= |ids|
  {
    if ids == [] then []
    else (if ids[0] == id then [] else [ids[0]]) + Without(ids[1..], id)
  }

  /** On a list without duplicates, `list.remove` is the filter. */
  lemma {:induction false} RemoveFirstIsWithout(ids: seq<ProductId>, id: ProductId)
    requires Distinct(ids)
    ensures RemoveFirst(ids, id) == Without(ids, id)
  {
    if ids != [] {
      assert Distinct(ids[1..]);
      RemoveFirstIsWithout(ids[1..], id);
      if ids[0] == id {
        assert id !in ids[1..] by {
          forall j | 0 <= j < |ids[1..]| ensures ids[1..][j] != id {
            assert ids[1..][j] == ids[j + 1];
          }
        }
        WithoutAbsent(ids[1..], id);
      }
    }
  }

  lemma {:induction false} WithoutAbsent(ids: seq<ProductId>, id: ProductId)
    requires id !in ids
    ensures Without(ids, id) == ids
  {
    if ids != [] {
      assert id !in ids[1..];
      WithoutAbsent(ids[1..], id);
    }
  }

  /** Filtering keeps a list free of duplicates. */
  lemma {:induction false} WithoutDistinct(ids: seq<ProductId>, id: ProductId)
    requires Distinct(ids)
    ensures Distinct(Without(ids, id))
  {
    if ids != [] {
      assert Distinct(ids[1..]);
      WithoutDistinct(ids[1..], id);
      var rest := Without(ids[1..], id);
      assert ids[0] !in ids[1..];
      assert ids[0] !in rest;
    }
  }

  /**
   * The session update of `product_detail`: the viewed product moves to (or enters at)
   * the front and the list is cut to the ten most recent.
   */
  function RecordView(ids: seq<ProductId>, id: ProductId): (r: seq<ProductId>)
    ensures 1 <= |r| <= RecentlyViewedLimit && r[0] == id
    ensures forall x | x in r :: x == id || x in ids
  {
    var rest := if id in ids then RemoveFirst(ids, id) else ids;
    var front := [id] + rest;
    if |front| > RecentlyViewedLimit then front[..RecentlyViewedLimit] else front
  }

  /**
   * On a session list without duplicates the update keeps it without duplicates, and
   * behind the viewed product come the others in their previous order, up to the limit.
   */
  lemma RecordViewKeepsOrder(ids: seq<ProductId>, id: ProductId)
    requires Distinct(ids)
    ensures var r := RecordView(ids, id);
      && Distinct(r)
      && |r| == Min(RecentlyViewedLimit, |Without(ids, id)| + 1)
      && r[1..] == Without(ids, id)[..|r| - 1]
  {
    var r := RecordView(ids, id);
    RemoveFirstIsWithout(ids, id);
    if id !in ids {
      WithoutAbsent(ids, id);
    }
    var rest := Without(ids, id);
    var front := [id] + rest;
    assert r == front[..|r|];
    WithoutDistinct(ids, id);
    FreshHeadDistinct(id, rest);
    PrefixDistinct(front, |r|);
    assert r[1..] == rest[..|r| - 1];
  }

  lemma FreshHeadDistinct(id: ProductId, rest: seq<ProductId>)
    requires Distinct(rest) && id !in rest
    ensures Distinct([id] + rest)
  {
    var front := [id] + rest;
    forall i, j | 0 <= i < j < |front| ensures front[i] != front[j] {
      assert front[j] == rest[j - 1];
      if i > 0 {
        assert front[i] == rest[i - 1];
      }
    }
  }

  lemma PrefixDistinct(ids: seq<ProductId>, n: nat)
    requires Distinct(ids) && n <= |ids|
    ensures Distinct(ids[..n])
  {
  }

  function Min(a: int, b: int): int
  {
    if a < b then a else b
  }

  /** Viewing the same product twice in a row leaves the list as the first view left it. */
  lemma RecordViewIdempotent(ids: seq<ProductId>, id: ProductId)
    ensures RecordView(RecordView(ids, id), id) == RecordView(ids, id)
  {
    var r := RecordView(ids, id);
    assert r == [r[0]] + r[1..];
  }

  /** A viewed product not among the nine most recent others pushes out the oldest of a full list. */
  lemma RecordViewDropsOldest(ids: seq<ProductId>, id: ProductId)
    requires Distinct(ids) && id !in ids && |ids| == RecentlyViewedLimit
    ensures RecordView(ids, id) == [id] + ids[..RecentlyViewedLimit - 1]
  {
    WithoutAbsent(ids, id);
  }
}
