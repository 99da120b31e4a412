/** The server-side cart engine: one cart per user id, kept in a map owned by a
    single service object. Adding merges lines by product id, removing takes a
    line down partially or entirely, and every successful change recomputes the
    cart's four derived figures. */
module CartEngine {
  import opened Wrappers
  import opened FakeStore

  /** The fixed 8% sales-tax rate. */
  const TaxRate: real := 0.08

  /** The two ways an engine operation fails. */
  datatype CartError = ProductNotFound | ItemNotFound

  /** The message of the exception each failure raises. */
  function ErrorMessage(e: CartError): string
  {
    match e
    case ProductNotFound => "Product not found"
    case ItemNotFound => "Item not found in cart"
  }

  // ---------------------------------------------------------------------------
  // Reductions over the lines of a cart.
  // Money is exact, so summing from the front equals the left-to-right `reduce`.
  // ---------------------------------------------------------------------------

  /** Sum of the line totals. */
  function SumTotals(items: seq<CartItem>): real
  {
    if items == [] then 0.0 else items[0].total + SumTotals(items[1..])
  }

  /** Sum of the line quantities. */
  function SumQuantities(items: seq<CartItem>): int
  {
    if items == [] then 0 else items[0].quantity + SumQuantities(items[1..])
  }

  /** With positive quantities, the item count is at least the number of lines. */
  lemma {:induction false} SumQuantitiesAtLeastLines(items: seq<CartItem>)
    requires AllPositive(items)
    ensures SumQuantities(items) >= |items|
  {
    if items != [] {
      SumQuantitiesAtLeastLines(items[1..]);
    }
  }

  /** The sums are the left-to-right `reduce` from 0: appending a line adds its
      total and its quantity. */
  lemma {:induction false} SumsAfterAppend(items: seq<CartItem>, x: CartItem)
    ensures SumTotals(items + [x]) == SumTotals(items) + x.total
    ensures SumQuantities(items + [x]) == SumQuantities(items) + x.quantity
  {
    if items == [] {
      assert [x][1..] == [];
    } else {
      assert (items + [x])[1..] == items[1..] + [x];
      SumsAfterAppend(items[1..], x);
    }
  }

  /** Replacing one line changes the sums by the difference of the two lines. */
  lemma {:induction false} SumsAfterReplace(items: seq<CartItem>, i: int, x: CartItem)
    requires 0 <= i < |items|
    ensures SumTotals(items[i := x]) == SumTotals(items) - items[i].total + x.total
    ensures SumQuantities(items[i := x]) == SumQuantities(items) - items[i].quantity + x.quantity
  {
    if i == 0 {
      assert items[0 := x][1..] == items[1..];
    } else {
      assert items[i := x][1..] == items[1..][i - 1 := x];
      SumsAfterReplace(items[1..], i - 1, x);
    }
  }

  /** Deleting one line takes its total and its quantity off the sums. */
  lemma {:induction false} SumsAfterDelete(items: seq<CartItem>, i: int)
    requires 0 <= i < |items|
    ensures SumTotals(items[..i] + items[i + 1..]) == SumTotals(items) - items[i].total
    ensures SumQuantities(items[..i] + items[i + 1..]) == SumQuantities(items) - items[i].quantity
  {
    if i == 0 {
      assert items[..0] + items[1..] == items[1..];
    } else {
      var rest := items[1..];
      assert (items[..i] + items[i + 1..])[1..] == rest[..i - 1] + rest[i..];
      SumsAfterDelete(rest, i - 1);
    }
  }

  // ---------------------------------------------------------------------------
  // Cart invariants
  // ---------------------------------------------------------------------------

  /** No product id occurs on two lines. */
  predicate UniqueIds(items: seq<CartItem>)
  {
    forall i, j :: 0 <= i < j < |items| ==> items[i].productId != items[j].productId
  }

  /** Every stored line has a quantity of at least one. */
  predicate AllPositive(items: seq<CartItem>)
  {
    forall i :: 0 <= i < |items| ==> items[i].quantity >= 1
  }

  /** The tax charged on a subtotal. */
  function Tax(subtotal: real): real
  {
    subtotal * TaxRate
  }

  /** The four derived figures agree with the lines. */
  predicate Consistent(c: Cart)
  {
    && c.subtotal == SumTotals(c.items)
    && c.totalItems == SumQuantities(c.items)
    && c.tax == Tax(c.subtotal)
    && c.total == c.subtotal + c.tax
  }

  /** What every cart in the store satisfies between operations. */
  predicate WellFormed(c: Cart)
  {
    Consistent(c) && UniqueIds(c.items) && AllPositive(c.items)
  }

  /** The cart created for a user seen for the first time, and the one that
      clearing installs. */
  function EmptyCart(): (c: Cart)
    ensures c.items == [] && WellFormed(c)
  {
    Cart([], 0, 0.0, 0.0, 0.0)
  }

  /** A consistent cart with no lines has all-zero figures: it is the empty
      cart. */
  lemma EmptyCartIsUnique(c: Cart)
    requires Consistent(c) && c.items == []
    ensures c == EmptyCart()
  {
  }

  /** Recomputation of the derived figures from the lines; the lines are kept. */
  function UpdateCartTotals(cart: Cart): (r: Cart)
    ensures r.items == cart.items && Consistent(r)
    ensures r.total == SumTotals(cart.items) * (1.0 + TaxRate)
  {
    var subtotal := SumTotals(cart.items);
    cart.(subtotal := subtotal,
          totalItems := SumQuantities(cart.items),
          tax := Tax(subtotal),
          total := subtotal + Tax(subtotal))
  }

  // ---------------------------------------------------------------------------
  // Line-level behaviour of add and remove
  // ---------------------------------------------------------------------------

  /** A line's total: its quantity at a unit price. */
  function LineTotal(quantity: int, price: real): real
  {
    quantity as real * price
  }

  /** The position of the first line holding `productId`, or -1 when none does. */
  function IndexOf(items: seq<CartItem>, productId: int): (i: int)
    ensures -1 <= i < |items|
    ensures 0 <= i ==> items[i].productId == productId
    ensures 0 <= i ==> forall j :: 0 <= j < i ==> items[j].productId != productId
    ensures i == -1 ==> forall j :: 0 <= j < |items| ==> items[j].productId != productId
  {
    if items == [] then -1
    else if items[0].productId == productId then 0
    else
      var k := IndexOf(items[1..], productId);
      if k == -1 then -1 else k + 1
  }

  /** The first line holding a product is where `IndexOf` points. */
  lemma IndexOfFirst(items: seq<CartItem>, productId: int, k: int)
    requires 0 <= k < |items| && items[k].productId == productId
    requires forall j :: 0 <= j < k ==> items[j].productId != productId
    ensures IndexOf(items, productId) == k
  {
  }

  /** In a cart without duplicate ids, a line's position is its product's index. */
  lemma IndexOfUnique(items: seq<CartItem>, k: int)
    requires UniqueIds(items) && 0 <= k < |items|
    ensures IndexOf(items, items[k].productId) == k
  {
  }

  /** How many of `productId` the lines hold (0 when no line does). */
  function QuantityOf(items: seq<CartItem>, productId: int): (n: int)
    ensures AllPositive(items) ==> (n >= 1 <==> IndexOf(items, productId) >= 0)
    ensures IndexOf(items, productId) < 0 ==> n == 0
  {
    var i := IndexOf(items, productId);
    if i >= 0 then items[i].quantity else 0
  }

  /** The line change `addToCart` makes once the catalog has answered with
      `product`: an existing line has its quantity raised and its total set at
      the freshly fetched price, while its stored price, title, image and
      position stay; otherwise a new line is appended at the end. */
  function AddLine(items: seq<CartItem>, productId: int, quantity: int, product: Product): (r: seq<CartItem>)
    ensures IndexOf(items, productId) >= 0 ==>
      |r| == |items| && IndexOf(r, productId) == IndexOf(items, productId)
    ensures IndexOf(items, productId) < 0 ==>
      |r| == |items| + 1 && IndexOf(r, productId) == |items|
    ensures forall j :: 0 <= j < |items| && items[j].productId != productId ==> r[j] == items[j]
    ensures QuantityOf(r, productId) == QuantityOf(items, productId) + quantity
    ensures r[IndexOf(r, productId)].total == LineTotal(QuantityOf(r, productId), product.price)
    ensures IndexOf(items, productId) >= 0 ==>
      var line, was := r[IndexOf(r, productId)], items[IndexOf(items, productId)];
      line.price == was.price && line.title == was.title && line.image == was.image
    ensures IndexOf(items, productId) < 0 ==>
      r[|items|].price == product.price && r[|items|].title == product.title && r[|items|].image == product.image
  {
    if IndexOf(items, productId) >= 0 then MergeLine(items, productId, quantity, product)
    else AppendLine(items, productId, quantity, product)
  }

  /** The merge branch of `AddLine`: the found line gets the new quantity and a
      total at the fetched price; nothing else moves. */
  function MergeLine(items: seq<CartItem>, productId: int, quantity: int, product: Product): (r: seq<CartItem>)
    requires IndexOf(items, productId) >= 0
    ensures var i := IndexOf(items, productId);
      && |r| == |items| && IndexOf(r, productId) == i
      && r[i] == items[i].(quantity := items[i].quantity + quantity,
                           total := LineTotal(items[i].quantity + quantity, product.price))
      && forall j :: 0 <= j < |items| && j != i ==> r[j] == items[j]
  {
    var i := IndexOf(items, productId);
    var merged := items[i].quantity + quantity;
    var r := items[i := items[i].(quantity := merged, total := LineTotal(merged, product.price))];
    IndexOfFirst(r, productId, i);
    r
  }

  /** The append branch of `AddLine`: a new line for the product at the end. */
  function AppendLine(items: seq<CartItem>, productId: int, quantity: int, product: Product): (r: seq<CartItem>)
    requires IndexOf(items, productId) < 0
    ensures |r| == |items| + 1 && IndexOf(r, productId) == |items|
    ensures r[..|items|] == items
    ensures r[|items|] == CartItem(productId, product.title, product.price, quantity, LineTotal(quantity, product.price), product.image)
  {
    var r := items + [CartItem(productId, product.title, product.price, quantity, LineTotal(quantity, product.price), product.image)];
    IndexOfFirst(r, productId, |items|);
    r
  }

  /** Adding keeps product ids unique and quantities positive. */
  lemma AddLineKeepsInvariant(items: seq<CartItem>, productId: int, quantity: int, product: Product)
    requires UniqueIds(items) && AllPositive(items) && quantity >= 1
    ensures var r := AddLine(items, productId, quantity, product);
      UniqueIds(r) && AllPositive(r)
  {
    var r := AddLine(items, productId, quantity, product);
    var i := IndexOf(items, productId);
    if i >= 0 {
      assert r == items[i := r[i]];
    } else {
      assert r == items + [r[|items|]];
    }
  }

  /** The `quantity && item.quantity > quantity` test of `removeFromCart`: an
      absent or zero amount, or one reaching the line's quantity, removes the
      whole line instead. */
  predicate IsPartialRemoval(item: CartItem, quantity: Option<nat>)
  {
    quantity.Some? && quantity.value != 0 && item.quantity > quantity.value
  }

  /** The line change `removeFromCart` makes on a line that exists: a partial
      removal lowers the quantity and recomputes the total at the line's
      stored price; otherwise the line is cut out and the rest keep their order. */
  function RemoveLine(items: seq<CartItem>, productId: int, quantity: Option<nat>): (r: seq<CartItem>)
    requires IndexOf(items, productId) >= 0
    ensures var i := IndexOf(items, productId);
      IsPartialRemoval(items[i], quantity) ==>
        && |r| == |items|
        && IndexOf(r, productId) == i
        && QuantityOf(r, productId) == items[i].quantity - quantity.value
        && QuantityOf(r, productId) >= 1
        && r[i].total == LineTotal(r[i].quantity, items[i].price)
        && r[i].price == items[i].price && r[i].title == items[i].title && r[i].image == items[i].image
        && (forall j :: 0 <= j < |items| && j != i ==> r[j] == items[j])
    ensures var i := IndexOf(items, productId);
      !IsPartialRemoval(items[i], quantity) ==>
        && |r| == |items| - 1
        && (forall j :: 0 <= j < i ==> r[j] == items[j])
        && (forall j :: i <= j < |r| ==> r[j] == items[j + 1])
    ensures UniqueIds(items) && !IsPartialRemoval(items[IndexOf(items, productId)], quantity) ==>
      IndexOf(r, productId) == -1
    ensures UniqueIds(items) ==> UniqueIds(r)
    ensures AllPositive(items) ==> AllPositive(r)
  {
    var i := IndexOf(items, productId);
    if IsPartialRemoval(items[i], quantity) then
      var left := items[i].quantity - quantity.value;
      var r := items[i := items[i].(quantity := left, total := LineTotal(left, items[i].price))];
      IndexOfFirst(r, productId, i);
      r
    else
      items[..i] + items[i + 1..]
  }

  /** An add raises the item count by exactly the amount added and moves the
      subtotal by the difference between the product's new and old line totals. */
  lemma AddLineTotals(items: seq<CartItem>, productId: int, quantity: int, product: Product)
    ensures var r := AddLine(items, productId, quantity, product);
      var oldLine := if IndexOf(items, productId) >= 0 then items[IndexOf(items, productId)].total else 0.0;
      && SumQuantities(r) == SumQuantities(items) + quantity
      && SumTotals(r) == SumTotals(items) - oldLine + r[IndexOf(r, productId)].total
  {
    var i := IndexOf(items, productId);
    var r := AddLine(items, productId, quantity, product);
    if i >= 0 {
      SumsAfterReplace(items, i, r[i]);
      assert r == items[i := r[i]];
    } else {
      SumsAfterAppend(items, r[|items|]);
      assert r == items + [r[|items|]];
    }
  }

  /** A remove lowers the item count by the amount taken out (the requested
      amount when partial, the whole line otherwise) and the subtotal by the
      change in that line's total. */
  lemma RemoveLineTotals(items: seq<CartItem>, productId: int, quantity: Option<nat>)
    requires IndexOf(items, productId) >= 0
    ensures var i := IndexOf(items, productId);
      var r := RemoveLine(items, productId, quantity);
      if IsPartialRemoval(items[i], quantity) then
        && SumQuantities(r) == SumQuantities(items) - quantity.value
        && SumTotals(r) == SumTotals(items) - items[i].total + r[i].total
      else
        && SumQuantities(r) == SumQuantities(items) - items[i].quantity
        && SumTotals(r) == SumTotals(items) - items[i].total
  {
    var i := IndexOf(items, productId);
    var r := RemoveLine(items, productId, quantity);
    if IsPartialRemoval(items[i], quantity) {
      SumsAfterReplace(items, i, r[i]);
      assert r == items[i := r[i]];
    } else {
      SumsAfterDelete(items, i);
    }
  }

  // ---------------------------------------------------------------------------
  // Sequences of adds
  // ---------------------------------------------------------------------------

  /** One request of a run of adds: an amount and the catalog's answer for it. */
  datatype Addition = Addition(quantity: int, product: Product)

  /** The lines after adding `productId` once per element of `adds`, in order:
      the last add is applied to the lines the earlier ones left. */
  function AddAll(items: seq<CartItem>, productId: int, adds: seq<Addition>): seq<CartItem>
  {
    if adds == [] then items
    else
      var last := adds[|adds| - 1];
      AddLine(AddAll(items, productId, adds[..|adds| - 1]), productId, last.quantity, last.product)
  }

  /** Total of the amounts requested by a run of adds. */
  function Requested(adds: seq<Addition>): int
  {
    if adds == [] then 0 else Requested(adds[..|adds| - 1]) + adds[|adds| - 1].quantity
  }

  /** A run of adds of one product raises its quantity by the sum of the
      requested amounts. */
  lemma {:induction false} RepeatedAddsQuantity(items: seq<CartItem>, productId: int, adds: seq<Addition>)
    ensures QuantityOf(AddAll(items, productId, adds), productId) == QuantityOf(items, productId) + Requested(adds)
  {
    if adds != [] {
      RepeatedAddsQuantity(items, productId, adds[..|adds| - 1]);
    }
  }

  /** After any non-empty run of adds of one product, its line holds the sum of
      the requested amounts on top of what it held, and its total is that
      quantity at the price fetched by the last add. */
  lemma RepeatedAdds(items: seq<CartItem>, productId: int, adds: seq<Addition>)
    requires adds != []
    ensures var r := AddAll(items, productId, adds);
      && IndexOf(r, productId) >= 0
      && QuantityOf(r, productId) == QuantityOf(items, productId) + Requested(adds)
      && r[IndexOf(r, productId)].total == LineTotal(QuantityOf(r, productId), adds[|adds| - 1].product.price)
  {
    RepeatedAddsQuantity(items, productId, adds);
  }

  /** The stored price is the one of the first add: after a price change an add
      totals the line at the new price, and a later partial remove totals it
      again at the old one. */
  lemma StalePriceAfterPriceChange()
    ensures var first := AddLine([], 1, 1, Product(1, "t", 10.0, "i"));
      var second := AddLine(first, 1, 1, Product(1, "t", 12.0, "i"));
      var third := RemoveLine(second, 1, Some(1));
      && second == [CartItem(1, "t", 10.0, 2, 24.0, "i")]
      && third == [CartItem(1, "t", 10.0, 1, 10.0, "i")]
  {
  }

  /** Adding two units at 10.00 to an empty cart gives subtotal 20.00, tax 1.60
      and total 21.60. */
  lemma AddToEmptyScenario(product: Product)
    requires product.price == 10.0
    ensures var c := UpdateCartTotals(EmptyCart().(items := AddLine([], product.id, 2, product)));
      |c.items| == 1 && c.items[0].quantity == 2 && c.totalItems == 2
      && c.subtotal == 20.0 && c.tax == 1.6 && c.total == 21.6
  {
    var items := AddLine([], product.id, 2, product);
    assert items == [CartItem(product.id, product.title, 10.0, 2, 20.0, product.image)];
    assert items[1..] == [];
    assert SumQuantities(items) == 2 && SumTotals(items) == 20.0;
  }

  // ---------------------------------------------------------------------------
  // The store
  // ---------------------------------------------------------------------------

  /** The cart stored for `userId`, or the empty cart a first access creates. */
  function StoredOrEmpty(carts: map<string, Cart>, userId: string): Cart
  {
    if userId in carts then carts[userId] else EmptyCart()
  }

  /** Storing a cart after the one a first access created leaves only the
      later one. */
  lemma StoreTwice(carts: map<string, Cart>, userId: string, first: Cart, second: Cart)
    ensures carts[userId := first][userId := second] == carts[userId := second]
  {
  }

  /** Storing a user's own cart again leaves the store as it was. */
  lemma StoreSame(carts: map<string, Cart>, userId: string)
    requires userId in carts
    ensures carts[userId := carts[userId]] == carts
  {
  }

  /** Every stored cart is well formed. */
  predicate AllWellFormed(carts: map<string, Cart>)
  {
    forall userId :: userId in carts ==> WellFormed(carts[userId])
  }

  /** Storing a well-formed cart keeps every stored cart well formed. */
  lemma StoreKeepsWellFormed(carts: map<string, Cart>, userId: string, cart: Cart)
    requires AllWellFormed(carts) && WellFormed(cart)
    ensures AllWellFormed(carts[userId := cart])
  {
  }

  /** The process-wide cart store. */
  class CartService {
    var carts: map<string, Cart>

    ghost predicate Valid()
      reads this
    {
      AllWellFormed(carts)
    }

    constructor ()
      ensures Valid() && carts == map[]
    {
      carts := map[];
    }

    /** Returns the user's cart, storing an empty one on first access. */
    method GetCart(userId: string) returns (cart: Cart)
      requires Valid()
      modifies this
      ensures Valid()
      ensures cart == StoredOrEmpty(old(carts), userId) && WellFormed(cart)
      ensures carts == old(carts)[userId := cart]
      ensures userId in old(carts) ==> carts == old(carts)
    {
      if userId !in carts {
        carts := carts[userId := EmptyCart()];
      }
      cart := carts[userId];
    }

    /** Adds `quantity` of a product whose catalog lookup gave `product`. A
        failed lookup fails before the store is touched. */
    method AddToCart(userId: string, productId: int, quantity: int, product: Option<Product>)
      returns (result: Result<Cart, CartError>)
      requires Valid() && quantity >= 1
      modifies this
      ensures Valid()
      ensures product.None? ==> result == Err(ProductNotFound) && carts == old(carts)
      ensures product.Some? ==>
        && result.Ok?
        && result.value.items == AddLine(StoredOrEmpty(old(carts), userId).items, productId, quantity, product.value)
        && WellFormed(result.value)
        && carts == old(carts)[userId := result.value]
    {
      if product.None? {
        return Err(ProductNotFound);
      }
      var cart := GetCart(userId);
      var fetched := product.value;
      var i := IndexOf(cart.items, productId);
      var items: seq<CartItem>;
      if i >= 0 {
        var merged := cart.items[i].quantity + quantity;
        var line := cart.items[i].(quantity := merged, total := LineTotal(merged, fetched.price));
        assert AddLine(cart.items, productId, quantity, fetched)[i] == line;
        items := cart.items[i := line];
      } else {
        var item := CartItem(productId, fetched.title, fetched.price, quantity, LineTotal(quantity, fetched.price), fetched.image);
        assert AddLine(cart.items, productId, quantity, fetched)[|cart.items|] == item;
        items := cart.items + [item];
      }
      assert items == AddLine(cart.items, productId, quantity, fetched);
      AddLineKeepsInvariant(cart.items, productId, quantity, fetched);
      cart := UpdateCartTotals(cart.(items := items));
      assert WellFormed(cart);
      StoreKeepsWellFormed(carts, userId, cart);
      carts := carts[userId := cart];
      assert carts == old(carts)[userId := cart] by {
        StoreTwice(old(carts), userId, StoredOrEmpty(old(carts), userId), cart);
      }
      return Ok(cart);
    }

    /** Removes `quantity` of a product from the user's cart, or the whole line.
        The cart is fetched (and so possibly created) before the line is looked
        up, so a failure can still leave a new empty cart behind. */
    method RemoveFromCart(userId: string, productId: int, quantity: Option<nat>)
      returns (result: Result<Cart, CartError>)
      requires Valid()
      modifies this
      ensures Valid()
      ensures var before := StoredOrEmpty(old(carts), userId);
        if IndexOf(before.items, productId) < 0 then
          result == Err(ItemNotFound) && carts == old(carts)[userId := before]
        else
          && result.Ok?
          && result.value.items == RemoveLine(before.items, productId, quantity)
          && WellFormed(result.value)
          && carts == old(carts)[userId := result.value]
    {
      var cart := GetCart(userId);
      var i := IndexOf(cart.items, productId);
      if i == -1 {
        return Err(ItemNotFound);
      }
      var items: seq<CartItem>;
      if IsPartialRemoval(cart.items[i], quantity) {
        var left := cart.items[i].quantity - quantity.value;
        var line := cart.items[i].(quantity := left, total := LineTotal(left, cart.items[i].price));
        assert RemoveLine(cart.items, productId, quantity)[i] == line;
        items := cart.items[i := line];
      } else {
        items := cart.items[..i] + cart.items[i + 1..];
      }
      assert items == RemoveLine(cart.items, productId, quantity);
      cart := UpdateCartTotals(cart.(items := items));
      StoreKeepsWellFormed(carts, userId, cart);
      carts := carts[userId := cart];
      assert carts == old(carts)[userId := cart] by {
        StoreTwice(old(carts), userId, StoredOrEmpty(old(carts), userId), cart);
      }
      return Ok(cart);
    }

    /** Replaces the user's cart with an empty one. */
    method ClearCart(userId: string)
      requires Valid()
      modifies this
      ensures Valid()
      ensures carts == old(carts)[userId := EmptyCart()]
    {
      carts := carts[userId := EmptyCart()];
    }
  }

  /** Clearing twice leaves the store as clearing once does. */
  method ClearTwice(service: CartService, userId: string)
    requires service.Valid()
    modifies service
    ensures service.Valid()
    ensures service.carts == old(service.carts)[userId := EmptyCart()]
    ensures service.carts[userId].items == []
  {
    service.ClearCart(userId);
    ghost var once := service.carts;
    service.ClearCart(userId);
    assert service.carts == once;
  }
}
