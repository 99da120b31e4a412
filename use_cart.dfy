/** The client's cart hook, reduced to its decision logic: how "set this
    product's quantity to n" becomes one add or remove request for the
    difference, and the item count and money total shown from the local copy of
    the cart's lines. */
module UseCart {
  import opened Wrappers
  import opened FakeStore
  import opened Validators
  import opened CartEngine
  import opened CartTool

  /** The request `updateQuantity` sends, if any. A remove without a quantity
      asks for the whole line. */
  datatype CartRequest =
    | NoRequest
    | AddRequest(productId: int, added: int)
    | RemoveRequest(productId: int, removed: Option<nat>)

  /** `!userId` is false: an id is present and, as a JavaScript number, is
      truthy, so a user id of 0 counts as no user. */
  function HasUser(userId: Option<int>): (present: bool)
    ensures present <==> userId.Some? && Truthy(Num(userId.value as real))
  {
    userId.Some? && userId.value != 0
  }

  /** The request for setting `productId` to `newQuantity` in the local `cart`:
      nothing without a user, for a negative target or for a product not in the
      cart; a full remove for 0; otherwise an add or a remove of the difference. */
  function UpdateQuantity(userId: Option<int>, cart: seq<CartItem>, productId: int, newQuantity: int): (req: CartRequest)
    ensures req == NoRequest <==>
      || !HasUser(userId) || newQuantity < 0 || IndexOf(cart, productId) < 0
      || (newQuantity != 0 && newQuantity == QuantityOf(cart, productId))
    ensures req != NoRequest ==> req.productId == productId
    ensures req.RemoveRequest? && req.removed.None? <==>
      HasUser(userId) && IndexOf(cart, productId) >= 0 && newQuantity == 0
    ensures req.AddRequest? ==>
      && req.added >= 1
      && QuantityOf(cart, productId) + req.added == newQuantity
    ensures req.RemoveRequest? && req.removed.Some? ==>
      && 1 <= req.removed.value < QuantityOf(cart, productId)
      && QuantityOf(cart, productId) - req.removed.value == newQuantity
  {
    if !HasUser(userId) || newQuantity < 0 then NoRequest
    else
      var i := IndexOf(cart, productId);
      if i < 0 then NoRequest
      else if newQuantity == 0 then RemoveRequest(productId, None)
      else
        var difference := newQuantity - cart[i].quantity;
        if difference > 0 then AddRequest(productId, difference)
        else if difference < 0 then RemoveRequest(productId, Some(-difference))
        else NoRequest
  }

  /** `cartCount`: the number of units in the local lines, which is the item
      count the server computes for the same lines. */
  function CartCount(cart: seq<CartItem>): (count: int)
    ensures count == UpdateCartTotals(EmptyCart().(items := cart)).totalItems
  {
    SumQuantities(cart)
  }

  /** `cartTotal`: the sum of the local line totals, which is the subtotal
      (before tax) the server computes for the same lines. */
  function CartTotal(cart: seq<CartItem>): (total: real)
    ensures total == UpdateCartTotals(EmptyCart().(items := cart)).subtotal
  {
    SumTotals(cart)
  }

  /** With the lines of a server cart, the client's figures are the server's
      item count and subtotal. */
  lemma ClientFiguresMatchServer(cart: Cart)
    requires Consistent(cart)
    ensures CartCount(cart.items) == cart.totalItems
    ensures CartTotal(cart.items) == cart.subtotal
  {
  }

  /** The lines of the server cart after it has carried out `req`, the catalog
      answering `product` for an add. A failed lookup makes the add fail and
      the lines stay as they were. */
  function ApplyRequest(items: seq<CartItem>, req: CartRequest, product: Option<Product>): seq<CartItem>
  {
    match req
    case NoRequest => items
    case AddRequest(id, quantity) =>
      if product.Some? then AddLine(items, id, quantity, product.value) else items
    case RemoveRequest(id, quantity) =>
      if IndexOf(items, id) >= 0 then RemoveLine(items, id, quantity) else items
  }

  /** Setting a quantity through the engine lands exactly on the target: an
      increase adds the difference, a decrease removes an amount strictly below
      the current quantity (so the line stays), and 0 removes the line. An
      increase whose catalog lookup fails leaves the lines as they were. */
  lemma UpdateQuantityReachesTarget(userId: Option<int>, items: seq<CartItem>, productId: int, newQuantity: int, product: Option<Product>)
    requires HasUser(userId) && UniqueIds(items) && AllPositive(items)
    requires IndexOf(items, productId) >= 0 && newQuantity >= 0
    ensures var req := UpdateQuantity(userId, items, productId, newQuantity);
      var after := ApplyRequest(items, req, product);
      && UniqueIds(after) && AllPositive(after)
      && (product.Some? || !req.AddRequest? ==>
            && QuantityOf(after, productId) == newQuantity
            && (newQuantity == 0 <==> IndexOf(after, productId) < 0))
      && (product.None? && req.AddRequest? ==> after == items)
  {
    var req := UpdateQuantity(userId, items, productId, newQuantity);
    var i := IndexOf(items, productId);
    match req
    case NoRequest =>
    case AddRequest(id, quantity) =>
      if product.Some? {
        AddLineKeepsInvariant(items, productId, quantity, product.value);
      }
    case RemoveRequest(id, quantity) =>
      if quantity.Some? {
        assert IsPartialRemoval(items[i], quantity);
      } else {
        assert !IsPartialRemoval(items[i], quantity);
      }
  }

  /** How the client's transport puts a remove quantity in the request body:
      an absent quantity is left out. */
  function QuantityParam(quantity: Option<nat>): (v: Value)
    ensures v == Undefined <==> quantity.None?
    ensures quantity.Some? ==> v == Num(quantity.value as real)
    ensures Truthy(v) <==> quantity.Some? && quantity.value != 0
  {
    match quantity
    case None => Undefined
    case Some(q) => Num(q as real)
  }

  /** An add of a positive amount of a catalog product, for a non-empty user
      id, passes the tool's checks unchanged. */
  lemma AddParamsAccepted(userIdText: string, productId: int, quantity: int)
    requires userIdText != "" && productId >= 1 && quantity >= 1
    ensures CheckAddParams(Params(Str(userIdText), Num(productId as real), Num(quantity as real)))
      == Ok(AddArgs(userIdText, productId, quantity))
  {
  }

  /** A remove of a catalog product, with no amount or a positive one, for a
      non-empty user id, passes the tool's checks unchanged. */
  lemma RemoveParamsAccepted(userIdText: string, productId: int, quantity: Option<nat>)
    requires userIdText != "" && productId >= 1 && (quantity.Some? ==> quantity.value >= 1)
    ensures CheckRemoveParams(Params(Str(userIdText), Num(productId as real), QuantityParam(quantity)))
      == Ok(RemoveArgs(userIdText, productId, quantity))
  {
  }

  /** Sends an add through the `add_to_cart` tool. The amount is positive, so
      the tool accepts it; the user's lines then change as `AddLine` says, or,
      when the catalog lookup fails, nothing changes. */
  method SendAdd(service: CartService, userIdText: string, productId: int, added: int, product: Option<Product>)
    requires service.Valid() && userIdText != "" && userIdText in service.carts
    requires productId >= 1 && added >= 1
    modifies service
    ensures service.Valid() && userIdText in service.carts
    ensures product.Some? ==>
      service.carts[userIdText].items == AddLine(old(service.carts[userIdText].items), productId, added, product.value)
    ensures product.None? ==> service.carts == old(service.carts)
    ensures service.carts == old(service.carts)[userIdText := service.carts[userIdText]]
  {
    ghost var before := service.carts;
    AddParamsAccepted(userIdText, productId, added);
    var p := Params(Str(userIdText), Num(productId as real), Num(added as real));
    var resp := AddToCartHandler(service, p, product);
    if product.None? {
      StoreSame(before, userIdText);
    }
  }

  /** Sends a remove through the `remove_from_cart` tool, leaving out an absent
      quantity as the client's transport does. */
  method SendRemove(service: CartService, userIdText: string, productId: int, removed: Option<nat>)
    requires service.Valid() && userIdText != "" && userIdText in service.carts
    requires productId >= 1 && (removed.Some? ==> removed.value >= 1)
    modifies service
    ensures service.Valid() && userIdText in service.carts
    ensures var before := old(service.carts[userIdText].items);
      service.carts[userIdText].items ==
        if IndexOf(before, productId) >= 0 then RemoveLine(before, productId, removed) else before
    ensures service.carts == old(service.carts)[userIdText := service.carts[userIdText]]
  {
    RemoveParamsAccepted(userIdText, productId, removed);
    var p := Params(Str(userIdText), Num(productId as real), QuantityParam(removed));
    var resp := RemoveFromCartHandler(service, p);
  }

  /** Sends a request through the server's tools. Every amount the client
      computes is positive, so the tools accept the request and the user's
      lines change exactly as the engine prescribes. */
  method SendRequest(service: CartService, userIdText: string, req: CartRequest, product: Option<Product>)
    requires service.Valid() && userIdText != "" && userIdText in service.carts
    requires req.AddRequest? ==> req.productId >= 1 && req.added >= 1
    requires req.RemoveRequest? ==> req.productId >= 1 && (req.removed.Some? ==> req.removed.value >= 1)
    modifies service
    ensures service.Valid() && userIdText in service.carts
    ensures service.carts[userIdText].items == ApplyRequest(old(service.carts[userIdText].items), req, product)
    ensures req.AddRequest? && product.None? ==> service.carts == old(service.carts)
    ensures service.carts == old(service.carts)[userIdText := service.carts[userIdText]]
  {
    match req {
      case NoRequest =>
      case AddRequest(id, added) =>
        SendAdd(service, userIdText, id, added, product);
      case RemoveRequest(id, removed) =>
        SendRemove(service, userIdText, id, removed);
    }
  }

  /** The client round trip: load the cart, decide from the loaded lines, and
      send the request. The line ends at exactly the target quantity, unless
      the target is an increase whose catalog lookup fails: then the add fails
      and the store is as it was. */
  method SetQuantityRoundTrip(service: CartService, userId: int, userIdText: string, productId: int, newQuantity: int, product: Option<Product>)
    returns (req: CartRequest)
    requires service.Valid()
    requires userId != 0 && userIdText != "" && productId >= 1 && newQuantity >= 0
    requires IndexOf(StoredOrEmpty(service.carts, userIdText).items, productId) >= 0
    modifies service
    ensures service.Valid()
    ensures userIdText in service.carts
    ensures var loaded := StoredOrEmpty(old(service.carts), userIdText).items;
      && req == UpdateQuantity(Some(userId), loaded, productId, newQuantity)
      && service.carts[userIdText].items == ApplyRequest(loaded, req, product)
    ensures product.Some? || !req.AddRequest? ==>
      QuantityOf(service.carts[userIdText].items, productId) == newQuantity
    ensures product.None? && req.AddRequest? ==> service.carts == old(service.carts)
    ensures service.carts == old(service.carts)[userIdText := service.carts[userIdText]]
  {
    ghost var before := service.carts;
    assert userIdText in before;
    var loaded := DisplayCartHandler(service, Params(Str(userIdText), Undefined, Undefined));
    StoreSame(before, userIdText);
    assert service.carts == before;
    var local := loaded.payload.cart.items;
    assert service.carts[userIdText].items == local;
    req := UpdateQuantity(Some(userId), local, productId, newQuantity);
    UpdateQuantityReachesTarget(Some(userId), local, productId, newQuantity, product);
    SendRequest(service, userIdText, req, product);
  }
}
