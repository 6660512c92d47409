/** The add-to-cart control (`AddToCartButton`): it finds the product's line
    in the cart, shows its quantity, and steps that quantity up or down, the
    step down from 1 deleting the line. */
module AddToCartButton {
  import opened Common

  /** A cart line as the store holds it: its own id, the product's id and
      the quantity. */
  datatype CartLine = CartLine(id: ObjectId, productId: ObjectId, quantity: int)

  /** The requests the control makes through the global cart helpers. */
  datatype CartRequest =
    | AddProduct(productId: ObjectId)
    | UpdateQuantity(lineId: ObjectId, quantity: int)
    | DeleteLine(lineId: ObjectId)

  /** `cartItem.find(item => item.productId._id === data._id)`. */
  function FindLine(cart: seq<CartLine>, productId: ObjectId): (r: Option<nat>)
    ensures r.Some? ==> r.value < |cart| && cart[r.value].productId == productId
    ensures r.Some? ==> forall j :: 0 <= j < r.value ==> cart[j].productId != productId
    ensures r.None? <==> forall j :: 0 <= j < |cart| ==> cart[j].productId != productId
    decreases |cart|
  {
    if |cart| == 0 then None
    else if cart[0].productId == productId then Some(0)
    else match FindLine(cart[1..], productId)
      case None => None
      case Some(i) => Some(i + 1)
  }

  /** `increaseQty` on the line shown. */
  function IncreaseRequest(line: CartLine): CartRequest {
    UpdateQuantity(line.id, line.quantity + 1)
  }

  /** `decreaseQty` on the line shown: at quantity 1 the line is deleted. */
  function DecreaseRequest(line: CartLine): (req: CartRequest)
    ensures line.quantity == 1 <==> req == DeleteLine(line.id)
    ensures line.quantity != 1 ==> req == UpdateQuantity(line.id, line.quantity - 1)
  {
    if line.quantity == 1 then DeleteLine(line.id) else UpdateQuantity(line.id, line.quantity - 1)
  }

  /** From a positive quantity no step requests a quantity below 1, and a
      step down after a step up asks for the quantity the line had. */
  lemma StepsKeepQuantityPositive(line: CartLine)
    requires line.quantity >= 1
    ensures IncreaseRequest(line).quantity >= 2
    ensures DecreaseRequest(line).UpdateQuantity? ==> DecreaseRequest(line).quantity >= 1
    ensures DecreaseRequest(line.(quantity := IncreaseRequest(line).quantity))
            == UpdateQuantity(line.id, line.quantity)
  {
  }

  class CartButton {
    /** The product the control is for (`data._id`). */
    const productId: ObjectId
    var isAvailableCart: bool
    /** `qty`: None while the product has no line (`product?.quantity`). */
    var qty: Option<int>
    var cartItemDetails: Option<CartLine>
    var loading: bool

    /** The shown quantity is the shown line's. */
    predicate Valid()
      reads this
    {
      && (isAvailableCart <==> cartItemDetails.Some?)
      && qty == (if cartItemDetails.Some? then Some(cartItemDetails.value.quantity) else None)
    }

    constructor(productId: ObjectId)
      ensures this.productId == productId && !isAvailableCart && qty.None? && cartItemDetails.None? && !loading
      ensures Valid()
    {
      this.productId := productId;
      isAvailableCart := false;
      qty := None;
      cartItemDetails := None;
      loading := false;
    }

    /** The effect on `[data, cartItem]`: the control shows the first line
        for the product, if any. */
    method Refresh(cart: seq<CartLine>)
      modifies this`isAvailableCart, this`qty, this`cartItemDetails
      ensures Valid()
      ensures isAvailableCart <==> exists j :: 0 <= j < |cart| && cart[j].productId == productId
      ensures isAvailableCart ==> cartItemDetails == Some(cart[FindLine(cart, productId).value])
    {
      var found := FindLine(cart, productId);
      isAvailableCart := found.Some?;
      if found.Some? {
        cartItemDetails := Some(cart[found.value]);
        qty := Some(cart[found.value].quantity);
      } else {
        cartItemDetails := None;
        qty := None;
      }
    }

    /** The plus button, rendered only while the product is in the cart. */
    method Increase() returns (req: CartRequest)
      requires Valid() && isAvailableCart
      ensures req == IncreaseRequest(cartItemDetails.value)
      ensures req.UpdateQuantity? && req.quantity == qty.value + 1
    {
      req := UpdateQuantity(cartItemDetails.value.id, qty.value + 1);
    }

    /** The minus button, rendered only while the product is in the cart. */
    method Decrease() returns (req: CartRequest)
      requires Valid() && isAvailableCart
      ensures req == DecreaseRequest(cartItemDetails.value)
      ensures qty.value >= 1 ==> (req.UpdateQuantity? ==> req.quantity >= 1)
    {
      if qty.value == 1 {
        req := DeleteLine(cartItemDetails.value.id);
      } else {
        req := UpdateQuantity(cartItemDetails.value.id, qty.value - 1);
      }
    }

    /** `handleADDTocart`, run from the enabled Add to Cart button: only the product id is sent; a failed request
        sends the user to the login page; `loading` is cleared on every path.
        `failed` is whether the request threw. */
    method Add(failed: bool) returns (req: CartRequest, toLogin: bool)
      requires AddEnabled()
      modifies this`loading
      ensures req == AddProduct(productId)
      ensures toLogin == failed
      ensures !loading && AddEnabled()
    {
      loading := true;
      req := AddProduct(productId);
      toLogin := failed;
      loading := false;
    }

    /** The Add to Cart button is disabled while a request is in flight. */
    predicate AddEnabled()
      reads this
    {
      !isAvailableCart && !loading
    }
  }
}
