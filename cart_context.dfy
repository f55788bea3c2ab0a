/**
 * The client-side cart of one tenant: an ordered list of line items keyed by
 * product, with stock-clamped adds and quantity updates, removal, clearing,
 * and the item-count and total folds.
 *
 * Each operation replaces the whole list, as the source's state updaters do.
 * The pure functions below say what the new list is; the `Cart` class holds
 * the list and its methods are proved to produce exactly that list.
 */
module CartContext {

  import opened Wrappers
  import opened Catalog

  /** A line item: a snapshot of the product taken when it was first added. Prices are in cents. */
  datatype CartItem = CartItem(
    id: int,
    productId: int,
    name: string,
    description: string,
    price: int,
    imageUrl: string,
    quantity: int,
    stockQuantity: int)

  /** `Math.min` on integers. */
  function Min(a: int, b: int): int {
    if a <= b then a else b
  }

  predicate InCart(items: seq<CartItem>, productId: int) {
    exists i :: 0 <= i < |items| && items[i].productId == productId
  }

  /** The cart's intended invariant: at most one line item per product. */
  predicate UniqueProducts(items: seq<CartItem>) {
    forall i, j :: 0 <= i < j < |items| ==> items[i].productId != items[j].productId
  }

  /** `items.find(item => item.productId === productId)`, as an index. */
  function FindItem(items: seq<CartItem>, productId: int): (r: Option<nat>)
    ensures r.Some? <==> InCart(items, productId)
    ensures r.Some? ==> r.value < |items| && items[r.value].productId == productId
    ensures r.Some? ==> forall j :: 0 <= j < r.value ==> items[j].productId != productId
  {
    if items == [] then None
    else if items[0].productId == productId then Some(0)
    else
      match FindItem(items[1..], productId)
      case None =>
        assert !InCart(items, productId) by {
          forall j | 0 <= j < |items| ensures items[j].productId != productId {
            if j > 0 { assert items[1..][j - 1] == items[j]; }
          }
        }
        None
      case Some(i) =>
        assert items[1..][i] == items[i + 1];
        Some(i + 1)
  }

  // ---------------------------------------------------------------------------
  // The snapshot a new line item takes

  /** `product.translations?.[0]?.name || 'Unnamed Product'` */
  function SnapshotName(product: Product): (r: string)
    ensures r != ""
    ensures product.translations != [] && product.translations[0].name != "" ==> r == product.translations[0].name
    ensures product.translations == [] || product.translations[0].name == "" ==> r == "Unnamed Product"
  {
    if product.translations != [] && product.translations[0].name != "" then product.translations[0].name
    else "Unnamed Product"
  }

  /** `product.translations?.[0]?.description || ''` */
  function SnapshotDescription(product: Product): (r: string)
    ensures product.translations != [] ==> r == product.translations[0].description
    ensures product.translations == [] ==> r == ""
  {
    if product.translations != [] then product.translations[0].description else ""
  }

  /** `product.images?.[0]?.imageUrl || product.imageUrl || ''` */
  function SnapshotImage(product: Product): (r: string)
    ensures r == "" <==> (product.images == [] || product.images[0].imageUrl == "") && product.imageUrl == ""
    ensures product.images != [] && product.images[0].imageUrl != "" ==> r == product.images[0].imageUrl
    ensures product.images == [] || product.images[0].imageUrl == "" ==> r == product.imageUrl
  {
    if product.images != [] && product.images[0].imageUrl != "" then product.images[0].imageUrl
    else product.imageUrl
  }

  /** The item appended for a product not yet in the cart; `id` stands for `Date.now()`. */
  function NewItem(product: Product, quantity: int, id: int): (r: CartItem)
    ensures r.id == id && r.productId == product.id && r.price == product.price
    ensures r.quantity == quantity && r.stockQuantity == product.stockQuantity
    ensures r.name == SnapshotName(product) && r.name != ""
    ensures r.description == SnapshotDescription(product) && r.imageUrl == SnapshotImage(product)
  {
    CartItem(id, product.id, SnapshotName(product), SnapshotDescription(product),
             product.price, SnapshotImage(product), quantity, product.stockQuantity)
  }

  // ---------------------------------------------------------------------------
  // The list transformations

  /** `items.map(item => item.productId === productId ? { ...item, quantity } : item)` */
  function WithQuantity(items: seq<CartItem>, productId: int, quantity: int): (r: seq<CartItem>)
    ensures |r| == |items|
    ensures forall i :: 0 <= i < |r| ==> r[i].(quantity := items[i].quantity) == items[i]
    ensures forall i :: 0 <= i < |r| && items[i].productId != productId ==> r[i] == items[i]
    ensures forall i :: 0 <= i < |r| && items[i].productId == productId ==> r[i].quantity == quantity
  {
    seq(|items|, i requires 0 <= i < |items| =>
      if items[i].productId == productId then items[i].(quantity := quantity) else items[i])
  }

  /** `updateQuantity`'s map: each matching item is clamped to its own stored ceiling. */
  function ClampQuantity(items: seq<CartItem>, productId: int, quantity: int): (r: seq<CartItem>)
    ensures |r| == |items|
    ensures forall i :: 0 <= i < |r| ==> r[i].(quantity := items[i].quantity) == items[i]
    ensures forall i :: 0 <= i < |r| && items[i].productId != productId ==> r[i] == items[i]
    ensures forall i :: 0 <= i < |r| && items[i].productId == productId ==>
              r[i].quantity <= items[i].stockQuantity && r[i].quantity <= quantity &&
              (r[i].quantity == quantity || r[i].quantity == items[i].stockQuantity)
  {
    seq(|items|, i requires 0 <= i < |items| =>
      if items[i].productId == productId
      then items[i].(quantity := Min(quantity, items[i].stockQuantity))
      else items[i])
  }

  /** `items.filter(item => item.productId !== productId)` */
  function Without(items: seq<CartItem>, productId: int): (r: seq<CartItem>)
    ensures |r| <= |items|
    ensures forall x :: x in r <==> x in items && x.productId != productId
    ensures !InCart(r, productId)
  {
    if items == [] then []
    else if items[0].productId == productId then Without(items[1..], productId)
    else [items[0]] + Without(items[1..], productId)
  }

  // ---------------------------------------------------------------------------
  // The operations, as functions of the list before

  datatype AddOutcome = AddOutcome(items: seq<CartItem>, quantityAdded: int)

  /**
   * `addToCart(product, quantity)` with its updater applied at once: an item
   * already in the cart gets `min(current + quantity, product.stockQuantity)`
   * and the change is returned; a new product is appended with
   * `min(quantity, product.stockQuantity)`, which is returned.
   */
  function Add(items: seq<CartItem>, product: Product, id: int, quantity: int): (r: AddOutcome)
    ensures InCart(r.items, product.id)
    ensures InCart(items, product.id) ==> |r.items| == |items|
    ensures !InCart(items, product.id) ==> |r.items| == |items| + 1 && r.items[..|items|] == items
  {
    match FindItem(items, product.id)
    case Some(i) =>
      var current := items[i].quantity;
      var newQuantity := Min(current + quantity, product.stockQuantity);
      var r := WithQuantity(items, product.id, newQuantity);
      assert r[i].productId == product.id;
      AddOutcome(r, newQuantity - current)
    case None =>
      var added := Min(quantity, product.stockQuantity);
      var r := items + [NewItem(product, added, id)];
      assert r[|items|].productId == product.id;
      AddOutcome(r, added)
  }

  /** `updateQuantity(productId, quantity)`: removal at or below zero, else a clamp to the stored ceiling. */
  function Update(items: seq<CartItem>, productId: int, quantity: int): (r: seq<CartItem>)
    ensures InCart(r, productId) <==> quantity > 0 && InCart(items, productId)
    ensures quantity <= 0 ==> forall x :: x in r <==> x in items && x.productId != productId
    ensures quantity > 0 ==> |r| == |items|
    ensures quantity > 0 ==>
              forall i :: 0 <= i < |r| ==>
                r[i] == if items[i].productId == productId
                        then items[i].(quantity := Min(quantity, items[i].stockQuantity))
                        else items[i]
  {
    if quantity <= 0 then Without(items, productId) else ClampQuantity(items, productId, quantity)
  }

  // ---------------------------------------------------------------------------
  // The folds

  /** `getCartItemCount`: the sum of the quantities. */
  function ItemCount(items: seq<CartItem>): (r: int)
    ensures items == [] ==> r == 0
    ensures (forall i :: 0 <= i < |items| ==> items[i].quantity >= 0) ==> r >= 0
  {
    if items == [] then 0 else items[0].quantity + ItemCount(items[1..])
  }

  /** `getCartTotal`: the sum of price times quantity, in cents. */
  function Total(items: seq<CartItem>): (r: int)
    ensures items == [] ==> r == 0
    ensures (forall i :: 0 <= i < |items| ==> items[i].quantity >= 0 && items[i].price >= 0) ==> r >= 0
  {
    if items == [] then 0 else items[0].price * items[0].quantity + Total(items[1..])
  }

  // ---------------------------------------------------------------------------
  // Lemmas: the folds

  lemma {:induction false} ItemCountAppend(a: seq<CartItem>, b: seq<CartItem>)
    ensures ItemCount(a + b) == ItemCount(a) + ItemCount(b)
  {
    if a == [] {
      assert a + b == b;
    } else {
      assert (a + b)[1..] == a[1..] + b;
      ItemCountAppend(a[1..], b);
    }
  }

  lemma {:induction false} TotalAppend(a: seq<CartItem>, b: seq<CartItem>)
    ensures Total(a + b) == Total(a) + Total(b)
  {
    if a == [] {
      assert a + b == b;
    } else {
      assert (a + b)[1..] == a[1..] + b;
      TotalAppend(a[1..], b);
    }
  }

  /** With no negative quantities, the count is positive exactly when some item has a positive quantity. */
  lemma {:induction false} ItemCountPositive(items: seq<CartItem>)
    requires forall i :: 0 <= i < |items| ==> items[i].quantity >= 0
    ensures ItemCount(items) > 0 <==> exists i :: 0 <= i < |items| && items[i].quantity > 0
  {
    if items != [] {
      ItemCountPositive(items[1..]);
      if exists i :: 0 <= i < |items[1..]| && items[1..][i].quantity > 0 {
        var i :| 0 <= i < |items[1..]| && items[1..][i].quantity > 0;
        assert items[i + 1].quantity > 0;
      }
      if exists i :: 0 <= i < |items| && items[i].quantity > 0 {
        var i :| 0 <= i < |items| && items[i].quantity > 0;
        if i > 0 { assert items[1..][i - 1].quantity > 0; }
      }
    }
  }

  // ---------------------------------------------------------------------------
  // Lemmas: the list transformations

  /** In a cart with one item per product, changing that product's quantity touches that item only. */
  lemma WithQuantitySplits(items: seq<CartItem>, productId: int, quantity: int, i: nat)
    requires UniqueProducts(items)
    requires i < |items| && items[i].productId == productId
    ensures WithQuantity(items, productId, quantity) ==
            items[..i] + [items[i].(quantity := quantity)] + items[i + 1..]
  {
  }

  /** The same for `updateQuantity`'s clamp. */
  lemma ClampQuantitySplits(items: seq<CartItem>, productId: int, quantity: int, i: nat)
    requires UniqueProducts(items)
    requires i < |items| && items[i].productId == productId
    ensures ClampQuantity(items, productId, quantity) ==
            items[..i] + [items[i].(quantity := Min(quantity, items[i].stockQuantity))] + items[i + 1..]
  {
  }

  lemma {:induction false} WithoutAppend(a: seq<CartItem>, b: seq<CartItem>, productId: int)
    ensures Without(a + b, productId) == Without(a, productId) + Without(b, productId)
  {
    if a == [] {
      assert a + b == b;
    } else {
      assert (a + b)[1..] == a[1..] + b;
      WithoutAppend(a[1..], b, productId);
    }
  }

  /** Removing a product that is not in the cart changes nothing. */
  lemma {:induction false} WithoutAbsent(items: seq<CartItem>, productId: int)
    requires !InCart(items, productId)
    ensures Without(items, productId) == items
  {
    if items != [] {
      assert !InCart(items[1..], productId) by {
        forall j | 0 <= j < |items[1..]| ensures items[1..][j].productId != productId {
          assert items[1..][j] == items[j + 1];
        }
      }
      WithoutAbsent(items[1..], productId);
      assert [items[0]] + items[1..] == items;
    }
  }

  /** In a cart with one item per product, removal drops exactly that item and keeps the rest in order. */
  lemma WithoutSplits(items: seq<CartItem>, productId: int, i: nat)
    requires UniqueProducts(items)
    requires i < |items| && items[i].productId == productId
    ensures Without(items, productId) == items[..i] + items[i + 1..]
  {
    assert items == items[..i] + ([items[i]] + items[i + 1..]);
    WithoutAppend(items[..i], [items[i]] + items[i + 1..], productId);
    WithoutAppend([items[i]], items[i + 1..], productId);
    var before, after := items[..i], items[i + 1..];
    assert !InCart(before, productId) by {
      forall j | 0 <= j < |before| ensures before[j].productId != productId { }
    }
    assert !InCart(after, productId) by {
      forall j | 0 <= j < |after| ensures after[j].productId != productId {
        assert after[j] == items[i + 1 + j];
      }
    }
    WithoutAbsent(items[..i], productId);
    WithoutAbsent(items[i + 1..], productId);
  }

  /** Removal keeps at most one item per product. */
  lemma WithoutKeepsUnique(items: seq<CartItem>, productId: int)
    requires UniqueProducts(items)
    ensures UniqueProducts(Without(items, productId))
  {
    if InCart(items, productId) {
      var i := FindItem(items, productId).value;
      WithoutSplits(items, productId, i);
    } else {
      WithoutAbsent(items, productId);
    }
  }

  // ---------------------------------------------------------------------------
  // Lemmas: addToCart

  /**
   * Re-adding a product already in the cart sets its quantity to
   * `min(old + quantity, product.stockQuantity)`, returns the difference,
   * and leaves every other field and every other item where it was.
   */
  lemma AddExisting(items: seq<CartItem>, product: Product, id: int, quantity: int, i: nat)
    requires UniqueProducts(items)
    requires i < |items| && items[i].productId == product.id
    ensures var r := Add(items, product, id, quantity);
            var newQuantity := Min(items[i].quantity + quantity, product.stockQuantity);
            && r.items == items[..i] + [items[i].(quantity := newQuantity)] + items[i + 1..]
            && r.quantityAdded == newQuantity - items[i].quantity
  {
    var k := FindItem(items, product.id).value;
    assert k == i;
    WithQuantitySplits(items, product.id, Min(items[i].quantity + quantity, product.stockQuantity), i);
  }

  /** Adding a product not yet in the cart appends one snapshot item at the end and returns its quantity. */
  lemma AddNew(items: seq<CartItem>, product: Product, id: int, quantity: int)
    requires !InCart(items, product.id)
    ensures var added := Min(quantity, product.stockQuantity);
            && Add(items, product, id, quantity).items == items + [NewItem(product, added, id)]
            && Add(items, product, id, quantity).quantityAdded == added
  {
  }

  /** The quantity of the product after an add never exceeds the stock the product reports. */
  lemma AddBoundedByStock(items: seq<CartItem>, product: Product, id: int, quantity: int)
    requires UniqueProducts(items)
    ensures var r := Add(items, product, id, quantity);
            forall j :: 0 <= j < |r.items| && r.items[j].productId == product.id ==>
              r.items[j].quantity <= product.stockQuantity
  {
    var r := Add(items, product, id, quantity);
    if InCart(items, product.id) {
      var i := FindItem(items, product.id).value;
      AddExisting(items, product, id, quantity, i);
      forall j | 0 <= j < |r.items| && j != i
        ensures r.items[j] == items[j] && items[j].productId != product.id
      {
      }
    } else {
      forall j | 0 <= j < |items| ensures r.items[j] == items[j] { }
    }
  }

  /** `addToCart` keeps at most one item per product. */
  lemma AddKeepsUnique(items: seq<CartItem>, product: Product, id: int, quantity: int)
    requires UniqueProducts(items)
    ensures UniqueProducts(Add(items, product, id, quantity).items)
  {
    if InCart(items, product.id) {
      AddExisting(items, product, id, quantity, FindItem(items, product.id).value);
    } else {
      var r := Add(items, product, id, quantity).items;
      forall i, j | 0 <= i < j < |r| ensures r[i].productId != r[j].productId {
        if j == |items| {
          assert r[i] == items[i];
        } else {
          assert r[i] == items[i] && r[j] == items[j];
        }
      }
    }
  }

  /** The item count grows by exactly the quantity `addToCart` reports. */
  lemma AddCountsWhatItReturns(items: seq<CartItem>, product: Product, id: int, quantity: int)
    requires UniqueProducts(items)
    ensures var r := Add(items, product, id, quantity);
            ItemCount(r.items) == ItemCount(items) + r.quantityAdded
  {
    if InCart(items, product.id) {
      var i := FindItem(items, product.id).value;
      AddExisting(items, product, id, quantity, i);
      var newQuantity := Min(items[i].quantity + quantity, product.stockQuantity);
      assert items == items[..i] + [items[i]] + items[i + 1..];
      ItemCountAppend(items[..i] + [items[i]], items[i + 1..]);
      ItemCountAppend(items[..i], [items[i]]);
      ItemCountAppend(items[..i] + [items[i].(quantity := newQuantity)], items[i + 1..]);
      ItemCountAppend(items[..i], [items[i].(quantity := newQuantity)]);
    } else {
      ItemCountAppend(items, [NewItem(product, Min(quantity, product.stockQuantity), id)]);
    }
  }

  /** Adding at the ceiling adds nothing: it returns 0 and the cart is unchanged. */
  lemma AddAtCeiling(items: seq<CartItem>, product: Product, id: int, quantity: int, i: nat)
    requires UniqueProducts(items)
    requires i < |items| && items[i].productId == product.id
    requires items[i].quantity == product.stockQuantity && quantity >= 0
    ensures Add(items, product, id, quantity).quantityAdded == 0
    ensures Add(items, product, id, quantity).items == items
  {
    AddExisting(items, product, id, quantity, i);
    assert items == items[..i] + [items[i]] + items[i + 1..];
  }

  /** If the product's stock fell below the quantity in the cart, re-adding lowers it and reports a negative change. */
  lemma AddAfterStockFell(items: seq<CartItem>, product: Product, id: int, quantity: int, i: nat)
    requires UniqueProducts(items)
    requires i < |items| && items[i].productId == product.id
    requires 0 <= quantity && product.stockQuantity < items[i].quantity
    ensures Add(items, product, id, quantity).quantityAdded == product.stockQuantity - items[i].quantity < 0
    ensures Add(items, product, id, quantity).items ==
              items[..i] + [items[i].(quantity := product.stockQuantity)] + items[i + 1..]
  {
    AddExisting(items, product, id, quantity, i);
  }

  /** A zero-stock product not yet in the cart is still appended, with quantity 0, and 0 is returned. */
  lemma AddZeroStockInsertsEmptyItem(items: seq<CartItem>, product: Product, id: int, quantity: int)
    requires !InCart(items, product.id)
    requires product.stockQuantity == 0 && quantity >= 0
    ensures Add(items, product, id, quantity).quantityAdded == 0
    ensures Add(items, product, id, quantity).items == items + [NewItem(product, 0, id)]
  {
  }

  /**
   * Re-adding does not refresh the stored ceiling: after the product's stock
   * grew, the item's quantity can exceed its own `stockQuantity`.
   */
  lemma AddCanPassStoredCeiling()
    ensures var item := CartItem(1, 7, "Shampoo", "", 500, "", 5, 5);
            var product := Product(7, 500, "", [], 10, []);
            var r := Add([item], product, 2, 3);
            r.items == [item.(quantity := 8)] && r.items[0].quantity > r.items[0].stockQuantity
  {
    var item := CartItem(1, 7, "Shampoo", "", 500, "", 5, 5);
    AddExisting([item], Product(7, 500, "", [], 10, []), 2, 3, 0);
  }

  /**
   * Adding a product with price 10.00 and stock 2 twice, one at a time,
   * yields one item of quantity 2 and a total of 20.00; a third add returns 0
   * and changes nothing.
   */
  lemma AddTwiceThenBlocked(product: Product, id1: int, id2: int, id3: int)
    requires product.id == 1 && product.price == 1000 && product.stockQuantity == 2
    ensures Add([], product, id1, 1) == AddOutcome([NewItem(product, 1, id1)], 1)
    ensures Add([NewItem(product, 1, id1)], product, id2, 1) == AddOutcome([NewItem(product, 2, id1)], 1)
    ensures Total([NewItem(product, 2, id1)]) == 2000
    ensures Add([NewItem(product, 2, id1)], product, id3, 1) == AddOutcome([NewItem(product, 2, id1)], 0)
  {
    AddNew([], product, id1, 1);
    AddExisting([NewItem(product, 1, id1)], product, id2, 1, 0);
    AddAtCeiling([NewItem(product, 2, id1)], product, id3, 1, 0);
  }

  // ---------------------------------------------------------------------------
  // Lemmas: updateQuantity and removeFromCart

  /** `updateQuantity(p, q)` with `q <= 0` leaves the same cart as `removeFromCart(p)`. */
  lemma UpdateNonPositiveRemoves(items: seq<CartItem>, productId: int, quantity: int)
    requires quantity <= 0
    ensures Update(items, productId, quantity) == Without(items, productId)
  {
  }

  /** `updateQuantity` on a product that is not in the cart changes nothing. */
  lemma UpdateAbsentIsNoOp(items: seq<CartItem>, productId: int, quantity: int)
    requires !InCart(items, productId)
    ensures Update(items, productId, quantity) == items
  {
    if quantity <= 0 {
      WithoutAbsent(items, productId);
    } else {
      assert ClampQuantity(items, productId, quantity) == items;
    }
  }

  /**
   * With a positive quantity, the product's item becomes
   * `min(quantity, item.stockQuantity)` against the ceiling stored in the
   * item, and nothing else changes.
   */
  lemma UpdatePositiveClamps(items: seq<CartItem>, productId: int, quantity: int, i: nat)
    requires UniqueProducts(items)
    requires quantity > 0 && i < |items| && items[i].productId == productId
    ensures Update(items, productId, quantity) ==
            items[..i] + [items[i].(quantity := Min(quantity, items[i].stockQuantity))] + items[i + 1..]
  {
    ClampQuantitySplits(items, productId, quantity, i);
  }

  /** `updateQuantity` keeps at most one item per product. */
  lemma UpdateKeepsUnique(items: seq<CartItem>, productId: int, quantity: int)
    requires UniqueProducts(items)
    ensures UniqueProducts(Update(items, productId, quantity))
  {
    if quantity <= 0 {
      WithoutKeepsUnique(items, productId);
    }
  }

  /** Removing a product lowers the count by that item's quantity and the total by its line price. */
  lemma RemoveLowersCountAndTotal(items: seq<CartItem>, productId: int, i: nat)
    requires UniqueProducts(items)
    requires i < |items| && items[i].productId == productId
    ensures ItemCount(Without(items, productId)) == ItemCount(items) - items[i].quantity
    ensures Total(Without(items, productId)) == Total(items) - items[i].price * items[i].quantity
  {
    var before, item, after := items[..i], items[i], items[i + 1..];
    WithoutSplits(items, productId, i);
    assert items == before + ([item] + after);
    ItemCountAppend(before, [item] + after);
    ItemCountAppend(before, after);
    TotalAppend(before, [item] + after);
    TotalAppend(before, after);
    assert ([item] + after)[1..] == after;
    assert ItemCount([item] + after) == item.quantity + ItemCount(after);
    assert Total([item] + after) == item.price * item.quantity + Total(after);
  }

  // ---------------------------------------------------------------------------
  // The cart state

  class Cart {
    /** `cartItems`, in insertion order. */
    var items: seq<CartItem>

    /** A fresh provider starts with an empty cart. */
    constructor ()
      ensures items == []
    {
      items := [];
    }

    /** `addToCart`; `id` stands for the `Date.now()` a new item is given. */
    method AddToCart(product: Product, id: int, quantity: int := 1) returns (quantityAdded: int)
      modifies this
      ensures AddOutcome(items, quantityAdded) == Add(old(items), product, id, quantity)
      ensures UniqueProducts(old(items)) ==> UniqueProducts(items)
      ensures UniqueProducts(old(items)) ==> ItemCount(items) == ItemCount(old(items)) + quantityAdded
    {
      ghost var before := items;
      var existing := FindItem(items, product.id);
      if existing.Some? {
        var currentQuantity := items[existing.value].quantity;
        var newQuantity := Min(currentQuantity + quantity, product.stockQuantity);
        quantityAdded := newQuantity - currentQuantity;
        items := WithQuantity(items, product.id, newQuantity);
      } else {
        quantityAdded := Min(quantity, product.stockQuantity);
        items := items + [NewItem(product, quantityAdded, id)];
      }
      if UniqueProducts(before) {
        AddKeepsUnique(before, product, id, quantity);
        AddCountsWhatItReturns(before, product, id, quantity);
      }
    }

    /** `removeFromCart` */
    method RemoveFromCart(productId: int)
      modifies this
      ensures items == Without(old(items), productId)
      ensures UniqueProducts(old(items)) ==> UniqueProducts(items)
    {
      if UniqueProducts(items) {
        WithoutKeepsUnique(items, productId);
      }
      items := Without(items, productId);
    }

    /** `updateQuantity` */
    method UpdateQuantity(productId: int, quantity: int)
      modifies this
      ensures items == Update(old(items), productId, quantity)
      ensures UniqueProducts(old(items)) ==> UniqueProducts(items)
    {
      if UniqueProducts(items) {
        UpdateKeepsUnique(items, productId, quantity);
      }
      if quantity <= 0 {
        RemoveFromCart(productId);
        return;
      }
      items := ClampQuantity(items, productId, quantity);
    }

    /** `clearCart` */
    method ClearCart()
      modifies this
      ensures items == []
    {
      items := [];
    }

    /** `getCartItemCount()` */
    function GetCartItemCount(): (r: int)
      reads this
      ensures r == ItemCount(items)
      ensures items == [] ==> r == 0
      ensures (forall i :: 0 <= i < |items| ==> items[i].quantity >= 0) ==> r >= 0
    {
      ItemCount(items)
    }

    /** `getCartTotal()` */
    function GetCartTotal(): (r: int)
      reads this
      ensures r == Total(items)
      ensures items == [] ==> r == 0
      ensures (forall i :: 0 <= i < |items| ==> items[i].quantity >= 0 && items[i].price >= 0) ==> r >= 0
    {
      Total(items)
    }
  }
}
