/** The cart tools of the server: each handler validates its parameters, fills
    in defaults, calls the cart service, and wraps the outcome as a `success`
    or `error` response. No failure escapes a handler: every exception becomes
    an `error` response carrying the exception's message. */
module CartTool {
  import opened Wrappers
  import opened FakeStore
  import opened Validators
  import opened CartEngine

  /** The parameters a handler reads from the request body. */
  datatype Params = Params(userId: Value, productId: Value, quantity: Value)

  datatype Status = Success | Error

  /** Where a response carries a cart: under `data.cart` (add, remove), at the
      top level under `cart` (display), or not at all. */
  datatype Payload = NoPayload | DataCart(cart: Cart) | TopLevelCart(cart: Cart)

  datatype Response = Response(status: Status, message: string, payload: Payload)

  /** Product ids and quantities are modelled as whole numbers only. */
  predicate IsIntegral(x: real)
  {
    x.Floor as real == x
  }

  predicate IntegralNumbers(p: Params)
  {
    && (p.productId.Num? ==> IsIntegral(p.productId.n))
    && (p.quantity.Num? ==> IsIntegral(p.quantity.n))
  }

  /** What `validateRequired` rejects. */
  predicate Missing(v: Value)
  {
    v == Undefined || v == Null || v == Str("")
  }

  /** What `validateRequired` followed by `validateString` lets through. */
  predicate IsUserId(v: Value)
  {
    v.Str? && v.s != ""
  }

  /** What `validatePositiveNumber` lets through. */
  predicate IsPositiveNumber(v: Value)
  {
    v.Num? && v.n > 0.0
  }

  /** Runs `next` only when `first` passed: a handler's checks throw in
      order, so the first failing check decides the error. */
  function AndThen(first: Outcome, next: Outcome): (r: Outcome)
    ensures r.Pass? <==> first.Pass? && next.Pass?
    ensures first.Fail? ==> r == first
  {
    if first.Fail? then first else next
  }

  /** `params.quantity || 1`: a falsy quantity becomes 1, a truthy one is
      kept as it is. */
  function AddQuantity(quantity: Value): (q: Value)
    ensures Truthy(q)
    ensures Truthy(quantity) ==> q == quantity
    ensures !Truthy(quantity) ==> q == Num(1.0)
  {
    if Truthy(quantity) then quantity else Num(1.0)
  }

  /** The checked arguments of an add. */
  datatype AddArgs = AddArgs(userId: string, productId: int, quantity: int)

  /** The checks of `add_to_cart`, in the handler's order. */
  function CheckAddParams(p: Params): (r: Result<AddArgs, ValidationError>)
    requires IntegralNumbers(p)
    ensures r.Ok? <==>
      IsUserId(p.userId) && IsPositiveNumber(p.productId) && IsPositiveNumber(AddQuantity(p.quantity))
    ensures r.Ok? ==>
      && r.value.userId == p.userId.s
      && r.value.productId >= 1 && r.value.productId as real == p.productId.n
      && r.value.quantity >= 1
      && r.value.quantity == (if Truthy(p.quantity) then p.quantity.n.Floor else 1)
    ensures Missing(p.userId) ==> r == Err(Required("user_id"))
    ensures IsUserId(p.userId) && IsPositiveNumber(p.productId) && p.quantity.Num? && p.quantity.n < 0.0 ==>
      r == Err(NotPositive("quantity"))
  {
    var quantity := AddQuantity(p.quantity);
    var outcome :=
      AndThen(ValidateRequired(p.userId, "user_id"),
      AndThen(ValidateRequired(p.productId, "product_id"),
      AndThen(ValidateString(p.userId, "user_id"),
      AndThen(ValidatePositiveNumber(p.productId, "product_id"),
              ValidatePositiveNumber(quantity, "quantity")))));
    match outcome
    case Fail(e) => Err(e)
    case Pass => Ok(AddArgs(p.userId.s, p.productId.n.Floor, quantity.n.Floor))
  }

  /** Every other failure of `add_to_cart`'s checks, in the handler's order:
      a missing product id is reported before a user id that is not a string,
      then the product id's number and sign checks, then a truthy quantity
      that is not a number. */
  lemma CheckAddParamsErrors(p: Params)
    requires IntegralNumbers(p)
    ensures !Missing(p.userId) && Missing(p.productId) ==>
      CheckAddParams(p) == Err(Required("product_id"))
    ensures !Missing(p.userId) && !Missing(p.productId) && !p.userId.Str? ==>
      CheckAddParams(p) == Err(NotAString("user_id"))
    ensures IsUserId(p.userId) && !Missing(p.productId) && !p.productId.Num? ==>
      CheckAddParams(p) == Err(NotANumber("product_id"))
    ensures IsUserId(p.userId) && p.productId.Num? && p.productId.n <= 0.0 ==>
      CheckAddParams(p) == Err(NotPositive("product_id"))
    ensures IsUserId(p.userId) && IsPositiveNumber(p.productId) && Truthy(p.quantity) && !p.quantity.Num? ==>
      CheckAddParams(p) == Err(NotANumber("quantity"))
  {
  }

  /** The checked arguments of a remove; `None` stands for an absent quantity. */
  datatype RemoveArgs = RemoveArgs(userId: string, productId: int, quantity: Option<nat>)

  /** The checks of `remove_from_cart`: the quantity is checked only when it is
      present, and an absent one is passed on as absent. */
  function CheckRemoveParams(p: Params): (r: Result<RemoveArgs, ValidationError>)
    requires IntegralNumbers(p)
    ensures r.Ok? <==>
      && IsUserId(p.userId) && IsPositiveNumber(p.productId)
      && (p.quantity == Undefined || IsPositiveNumber(p.quantity))
    ensures r.Ok? ==>
      && r.value.userId == p.userId.s
      && r.value.productId >= 1 && r.value.productId as real == p.productId.n
      && (r.value.quantity.None? <==> p.quantity == Undefined)
      && (r.value.quantity.Some? ==> r.value.quantity.value >= 1 && r.value.quantity.value as real == p.quantity.n)
    ensures Missing(p.userId) ==> r == Err(Required("user_id"))
    ensures IsUserId(p.userId) && IsPositiveNumber(p.productId) && p.quantity.Num? && p.quantity.n <= 0.0 ==>
      r == Err(NotPositive("quantity"))
    ensures IsUserId(p.userId) && IsPositiveNumber(p.productId) && p.quantity == Null ==>
      r == Err(NotANumber("quantity"))
  {
    var outcome :=
      AndThen(ValidateRequired(p.userId, "user_id"),
      AndThen(ValidateRequired(p.productId, "product_id"),
      AndThen(ValidateString(p.userId, "user_id"),
      AndThen(ValidatePositiveNumber(p.productId, "product_id"),
              if p.quantity != Undefined then ValidatePositiveNumber(p.quantity, "quantity") else Pass))));
    match outcome
    case Fail(e) => Err(e)
    case Pass =>
      var quantity := if p.quantity == Undefined then None else Some(p.quantity.n.Floor as nat);
      Ok(RemoveArgs(p.userId.s, p.productId.n.Floor, quantity))
  }

  /** Every other failure of `remove_from_cart`'s checks, in the handler's
      order; a present quantity that is not a number is reported last. */
  lemma CheckRemoveParamsErrors(p: Params)
    requires IntegralNumbers(p)
    ensures !Missing(p.userId) && Missing(p.productId) ==>
      CheckRemoveParams(p) == Err(Required("product_id"))
    ensures !Missing(p.userId) && !Missing(p.productId) && !p.userId.Str? ==>
      CheckRemoveParams(p) == Err(NotAString("user_id"))
    ensures IsUserId(p.userId) && !Missing(p.productId) && !p.productId.Num? ==>
      CheckRemoveParams(p) == Err(NotANumber("product_id"))
    ensures IsUserId(p.userId) && p.productId.Num? && p.productId.n <= 0.0 ==>
      CheckRemoveParams(p) == Err(NotPositive("product_id"))
    ensures IsUserId(p.userId) && IsPositiveNumber(p.productId) && p.quantity != Undefined && !p.quantity.Num? ==>
      CheckRemoveParams(p) == Err(NotANumber("quantity"))
  {
  }

  /** The checks of `display_cart` and `clear_cart`: a non-empty string user id. */
  function CheckUserId(userId: Value): (r: Result<string, ValidationError>)
    ensures r.Ok? <==> IsUserId(userId)
    ensures r.Ok? ==> r.value == userId.s
    ensures Missing(userId) ==> r == Err(Required("user_id"))
    ensures userId.Num? || userId.Bool? || userId == NaN || userId == Obj ==> r == Err(NotAString("user_id"))
  {
    match AndThen(ValidateRequired(userId, "user_id"), ValidateString(userId, "user_id"))
    case Fail(e) => Err(e)
    case Pass => Ok(userId.s)
  }

  /** The response for the outcome of an add or a remove: a success carries
      the cart under `data`, a failure the engine's message and no cart. */
  function CartResponse(result: Result<Cart, CartError>, successMessage: string): (resp: Response)
    ensures resp.status == Success <==> result.Ok?
    ensures result.Ok? ==> resp.message == successMessage && resp.payload == DataCart(result.value)
    ensures result.Err? ==> resp.message == ErrorMessage(result.error) && resp.payload == NoPayload
  {
    match result
    case Ok(cart) => Response(Success, successMessage, DataCart(cart))
    case Err(e) => Response(Error, ErrorMessage(e), NoPayload)
  }

  /** The part of `add_to_cart` after its checks: the service call and the
      response for its outcome. */
  method AddChecked(service: CartService, args: AddArgs, product: Option<Product>) returns (resp: Response)
    requires service.Valid() && args.quantity >= 1
    modifies service
    ensures service.Valid()
    ensures resp.status == Success <==> product.Some?
    ensures product.None? ==>
      resp == Response(Error, ErrorMessage(ProductNotFound), NoPayload) && service.carts == old(service.carts)
    ensures product.Some? ==>
      && resp.message == "Product added to cart successfully"
      && resp.payload.DataCart?
      && WellFormed(resp.payload.cart)
      && resp.payload.cart.items ==
         AddLine(StoredOrEmpty(old(service.carts), args.userId).items, args.productId, args.quantity, product.value)
      && service.carts == old(service.carts)[args.userId := resp.payload.cart]
  {
    var result := service.AddToCart(args.userId, args.productId, args.quantity, product);
    resp := CartResponse(result, "Product added to cart successfully");
  }

  /** `add_to_cart`; `product` is the catalog's answer for the requested id. */
  method AddToCartHandler(service: CartService, p: Params, product: Option<Product>) returns (resp: Response)
    requires service.Valid() && IntegralNumbers(p)
    modifies service
    ensures service.Valid()
    ensures resp.status == Success <==> CheckAddParams(p).Ok? && product.Some?
    ensures resp.status == Error ==> resp.payload == NoPayload && service.carts == old(service.carts)
    ensures product.None? ==> resp.status == Error && service.carts == old(service.carts)
    ensures CheckAddParams(p).Err? ==> resp.message == Message(CheckAddParams(p).error)
    ensures CheckAddParams(p).Ok? && product.None? ==> resp.message == ErrorMessage(ProductNotFound)
    ensures resp.status == Success ==>
      var args := CheckAddParams(p).value;
      && resp.message == "Product added to cart successfully"
      && resp.payload.DataCart?
      && WellFormed(resp.payload.cart)
      && resp.payload.cart.items ==
         AddLine(StoredOrEmpty(old(service.carts), args.userId).items, args.productId, args.quantity, product.value)
      && service.carts == old(service.carts)[args.userId := resp.payload.cart]
  {
    var checked := CheckAddParams(p);
    if checked.Err? {
      return Response(Error, Message(checked.error), NoPayload);
    }
    resp := AddChecked(service, checked.value, product);
  }

  /** `remove_from_cart`. */
  method RemoveFromCartHandler(service: CartService, p: Params) returns (resp: Response)
    requires service.Valid() && IntegralNumbers(p)
    modifies service
    ensures service.Valid()
    ensures CheckRemoveParams(p).Err? ==>
      resp == Response(Error, Message(CheckRemoveParams(p).error), NoPayload) && service.carts == old(service.carts)
    ensures CheckRemoveParams(p).Ok? ==>
      var args := CheckRemoveParams(p).value;
      var before := StoredOrEmpty(old(service.carts), args.userId);
      if IndexOf(before.items, args.productId) < 0 then
        && resp == Response(Error, ErrorMessage(ItemNotFound), NoPayload)
        && service.carts == old(service.carts)[args.userId := before]
      else
        && resp.status == Success
        && resp.message == "Product removed from cart successfully"
        && resp.payload.DataCart?
        && WellFormed(resp.payload.cart)
        && resp.payload.cart.items == RemoveLine(before.items, args.productId, args.quantity)
        && service.carts == old(service.carts)[args.userId := resp.payload.cart]
  {
    var checked := CheckRemoveParams(p);
    if checked.Err? {
      return Response(Error, Message(checked.error), NoPayload);
    }
    var args := checked.value;
    var result := service.RemoveFromCart(args.userId, args.productId, args.quantity);
    resp := CartResponse(result, "Product removed from cart successfully");
  }

  /** `display_cart`: always succeeds for a valid user id, creating the cart on
      first access. */
  method DisplayCartHandler(service: CartService, p: Params) returns (resp: Response)
    requires service.Valid()
    modifies service
    ensures service.Valid()
    ensures CheckUserId(p.userId).Err? ==>
      resp == Response(Error, Message(CheckUserId(p.userId).error), NoPayload) && service.carts == old(service.carts)
    ensures CheckUserId(p.userId).Ok? ==>
      var userId := CheckUserId(p.userId).value;
      var cart := StoredOrEmpty(old(service.carts), userId);
      && resp == Response(Success, "Cart retrieved successfully", TopLevelCart(cart))
      && service.carts == old(service.carts)[userId := cart]
  {
    var checked := CheckUserId(p.userId);
    if checked.Err? {
      return Response(Error, Message(checked.error), NoPayload);
    }
    var cart := service.GetCart(checked.value);
    resp := Response(Success, "Cart retrieved successfully", TopLevelCart(cart));
  }

  /** `clear_cart`: succeeds for a valid user id, with no cart in the response. */
  method ClearCartHandler(service: CartService, p: Params) returns (resp: Response)
    requires service.Valid()
    modifies service
    ensures service.Valid()
    ensures CheckUserId(p.userId).Err? ==>
      resp == Response(Error, Message(CheckUserId(p.userId).error), NoPayload) && service.carts == old(service.carts)
    ensures CheckUserId(p.userId).Ok? ==>
      var userId := CheckUserId(p.userId).value;
      && resp == Response(Success, "Cart cleared successfully", NoPayload)
      && service.carts == old(service.carts)[userId := EmptyCart()]
      && service.carts[userId].items == []
  {
    var checked := CheckUserId(p.userId);
    if checked.Err? {
      return Response(Error, Message(checked.error), NoPayload);
    }
    service.ClearCart(checked.value);
    resp := Response(Success, "Cart cleared successfully", NoPayload);
  }
}
