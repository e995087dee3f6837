/** The checkout rules of the cart page (client/src/pages/Cart.jsx): the
    subtotal, the address string, the guard and payload of `PlaceOrder`, and
    the removal quantity the "−" and trash controls send. React state and
    rendering are not modelled; `PlaceOrder` becomes a decision function. */
module Checkout {
  import opened Base

  /** A product as the populated cart returns it; only `price.org` is used.
      Any of `product`, `price` or `org` may be missing in the data. */
  datatype Product = Product(id: ProductId, priceOrg: Option<int>)

  /** One item of the `products` state: a populated cart line. */
  datatype CartItem = CartItem(product: Option<Product>, quantity: int)

  datatype DeliveryDetails = DeliveryDetails(
    firstName: string, lastName: string, emailAddress: string, phoneNumber: string, completeAddress: string)

  datatype PaymentDetails = PaymentDetails(
    cardNumber: string, expiryDate: string, cvv: string, cardHolderName: string)

  /** The body posted to the order endpoint. `totalAmount` is None where the
      JS arithmetic yields NaN. */
  datatype OrderPayload = OrderPayload(
    products: seq<CartItem>, address: string, totalAmount: Option<int>, paymentDetails: PaymentDetails)

  /** What pressing "Place Order" leads to: a warning for an empty cart, an
      error for an incomplete form, or the order request. */
  datatype Submission = EmptyCart | IncompleteForm | Send(payload: OrderPayload)

  // ---------------------------------------------------------------- subtotal

  /** `item?.product?.price?.org`: None stands for `undefined`. */
  function UnitPrice(item: CartItem): Option<int>
  {
    if item.product.Some? then item.product.value.priceOrg else None
  }

  /** One step of the `reduce`: `total + item.quantity * price`, where a
      NaN on either side stays NaN. */
  function AddLineTotal(total: Option<int>, item: CartItem): Option<int>
  {
    match (total, UnitPrice(item))
    case (Some(t), Some(p)) => Some(t + item.quantity * p)
    case _ => None
  }

  /** The left fold `reduce` runs, from accumulator `acc`. */
  function FoldSubtotal(acc: Option<int>, items: seq<CartItem>): Option<int>
    decreases |items|
  {
    if items == [] then acc else FoldSubtotal(AddLineTotal(acc, items[0]), items[1..])
  }

  /** `calculateSubtotal`: the fold from 0 over the cart items. */
  function CalculateSubtotal(items: seq<CartItem>): Option<int>
  {
    FoldSubtotal(Some(0), items)
  }

  /** Every item has a product with a price. */
  predicate AllPriced(items: seq<CartItem>)
  {
    forall i :: 0 <= i < |items| ==> UnitPrice(items[i]).Some?
  }

  /** Reference definition: the sum of quantity × price over priced items. */
  function Sum(items: seq<CartItem>): int
    requires AllPriced(items)
  {
    if items == [] then 0 else items[0].quantity * UnitPrice(items[0]).value + Sum(items[1..])
  }

  lemma {:induction false} FoldOfNaN(items: seq<CartItem>)
    ensures FoldSubtotal(None, items) == None
  {
    if items != [] {
      FoldOfNaN(items[1..]);
    }
  }

  lemma {:induction false} FoldIsSum(acc: int, items: seq<CartItem>)
    decreases |items|
    ensures FoldSubtotal(Some(acc), items) == if AllPriced(items) then Some(acc + Sum(items)) else None
  {
    if items != [] {
      var step := AddLineTotal(Some(acc), items[0]);
      if step.Some? {
        FoldIsSum(step.value, items[1..]);
        assert AllPriced(items) <==> AllPriced(items[1..]) by {
          assert forall i :: 0 < i < |items| ==> items[i] == items[1..][i - 1];
        }
      } else {
        FoldOfNaN(items[1..]);
      }
    }
  }

  /** The subtotal is the sum of quantity × `price.org` over all items, 0 for
      an empty cart, and NaN as soon as one item lacks a price. */
  lemma SubtotalIsSum(items: seq<CartItem>)
    ensures CalculateSubtotal(items) == if AllPriced(items) then Some(Sum(items)) else None
    ensures items == [] ==> CalculateSubtotal(items) == Some(0)
  {
    FoldIsSum(0, items);
  }

  /** Two of one product at 999 and one at 599 come to 2597. */
  lemma SubtotalExample()
    ensures CalculateSubtotal([CartItem(Some(Product(1, Some(999))), 2), CartItem(Some(Product(2, Some(599))), 1)]) == Some(2597)
  {
  }

  // ----------------------------------------------------------------- address

  /** `convertAddressToString`: "first last, address, phone, email". Each
      field can be read back at a fixed offset, so nothing is lost or
      reordered. */
  function ConvertAddressToString(d: DeliveryDetails): (r: string)
    ensures var f, l, c, p := |d.firstName|, |d.lastName|, |d.completeAddress|, |d.phoneNumber|;
            && |r| == f + l + c + p + |d.emailAddress| + 7
            && r[..f] == d.firstName
            && r[f..f + 1] == " "
            && r[f + 1..f + 1 + l] == d.lastName
            && r[f + 1 + l..f + 3 + l] == ", "
            && r[f + 3 + l..f + 3 + l + c] == d.completeAddress
            && r[f + 3 + l + c..f + 5 + l + c] == ", "
            && r[f + 5 + l + c..f + 5 + l + c + p] == d.phoneNumber
            && r[f + 5 + l + c + p..f + 7 + l + c + p] == ", "
            && r[f + 7 + l + c + p..] == d.emailAddress
  {
    d.firstName + " " + d.lastName + ", " + d.completeAddress + ", " + d.phoneNumber + ", " + d.emailAddress
  }

  // ------------------------------------------------------------ place order

  /** `Object.values(deliveryDetails)`, in the order the state declares them. */
  function DeliveryValues(d: DeliveryDetails): seq<string>
  {
    [d.firstName, d.lastName, d.emailAddress, d.phoneNumber, d.completeAddress]
  }

  /** `Object.values(paymentDetails)`. */
  function PaymentValues(p: PaymentDetails): seq<string>
  {
    [p.cardNumber, p.expiryDate, p.cvv, p.cardHolderName]
  }

  /** `.every(Boolean)` over strings: no value is the empty string. */
  predicate EveryFilled(values: seq<string>)
  {
    forall i :: 0 <= i < |values| ==> values[i] != ""
  }

  /** Every delivery field is filled in, field by field. */
  predicate DeliveryFilled(d: DeliveryDetails)
  {
    d.firstName != "" && d.lastName != "" && d.emailAddress != "" && d.phoneNumber != "" && d.completeAddress != ""
  }

  /** Every payment field is filled in, field by field. */
  predicate PaymentFilled(p: PaymentDetails)
  {
    p.cardNumber != "" && p.expiryDate != "" && p.cvv != "" && p.cardHolderName != ""
  }

  /** `.every(Boolean)` over `Object.values` checks each field in turn. */
  lemma FilledValues(d: DeliveryDetails, p: PaymentDetails)
    ensures EveryFilled(DeliveryValues(d)) <==> DeliveryFilled(d)
    ensures EveryFilled(PaymentValues(p)) <==> PaymentFilled(p)
  {
    var dv, pv := DeliveryValues(d), PaymentValues(p);
    assert dv[0] == d.firstName && dv[1] == d.lastName && dv[2] == d.emailAddress;
    assert dv[3] == d.phoneNumber && dv[4] == d.completeAddress;
    assert pv[0] == p.cardNumber && pv[1] == p.expiryDate && pv[2] == p.cvv && pv[3] == p.cardHolderName;
  }

  /** `PlaceOrder`'s decision. The empty cart is checked first; then every
      delivery and payment field must be non-empty; then the payload carries
      the products unchanged, the formatted address, the subtotal and the
      payment details. */
  function PlaceOrder(products: seq<CartItem>, delivery: DeliveryDetails, payment: PaymentDetails): (r: Submission)
    ensures products == [] ==> r == EmptyCart
    ensures products != [] && !DeliveryFilled(delivery) ==> r == IncompleteForm
    ensures products != [] && !PaymentFilled(payment) ==> r == IncompleteForm
    ensures r.Send? <==> products != [] && DeliveryFilled(delivery) && PaymentFilled(payment)
    ensures r.Send? ==>
              && r.payload.products == products
              && r.payload.address == ConvertAddressToString(delivery)
              && r.payload.totalAmount == (if AllPriced(products) then Some(Sum(products)) else None)
              && r.payload.paymentDetails == payment
  {
    FilledValues(delivery, payment);
    if |products| == 0 then EmptyCart
    else if !EveryFilled(DeliveryValues(delivery)) || !EveryFilled(PaymentValues(payment)) then IncompleteForm
    else
      SubtotalIsSum(products);
      Send(OrderPayload(products, ConvertAddressToString(delivery), CalculateSubtotal(products), payment))
  }

  // ---------------------------------------------------------------- controls

  /** The quantity the "+" control asks to add (`addCart`). */
  const PlusQuantity: int := 1

  /** The second argument of `removeCart`: a label from the "−" control, or
      whatever else a caller passes (the trash control passes a number). */
  datatype RemoveArg = Label(text: string) | Count(n: int)

  /** `removeCart`'s body field `quantity`: `null` exactly for "full",
      otherwise one unit. */
  function RemovalQuantity(arg: RemoveArg): (q: Option<int>)
    ensures q.None? <==> arg == Label("full")
    ensures q.Some? ==> q.value == 1
  {
    if arg == Label("full") then None else Some(1)
  }

  /** The "−" control for an item holding `quantity` units: one unit while
      more than one is held, the whole line otherwise. */
  function MinusControl(quantity: int): (arg: RemoveArg)
    ensures RemovalQuantity(arg) == if quantity > 1 then Some(1) else None
  {
    if quantity > 1 then Label("partial") else Label("full")
  }

  /** The trash control as written: `item.quantity` lands in the `type`
      parameter, so the request is for one unit, never the whole line. */
  function TrashControl(quantity: int): (arg: RemoveArg)
    ensures RemovalQuantity(arg) == Some(1)
  {
    Count(quantity)
  }

  /** The trash control as intended: remove the whole line. */
  function TrashControlIntended(quantity: int): (arg: RemoveArg)
    ensures RemovalQuantity(arg) == None
  {
    Label("full")
  }

  // ---------------------------------------------------------------- requests

  /** Where a cart request is posted. Both API wrappers the page uses post
      to `/user/cart`; `RemovalRoute` stands for a removal route of its own,
      which the client does not have. */
  datatype Route = UserCart | RemovalRoute

  /** A cart request as it leaves the page: its route and its JSON body. The
      bearer header is the same on every request and is left out. */
  datatype CartRequest = CartRequest(route: Route, productId: ProductId, quantity: Option<int>)

  /** `addCart(id)`, sent through the `addToCart` wrapper. */
  function AddCartRequest(id: ProductId): CartRequest
  {
    CartRequest(UserCart, id, Some(PlusQuantity))
  }

  /** `removeCart(id, type)`, sent through the `deleteFromCart` wrapper. */
  function RemoveCartRequest(id: ProductId, arg: RemoveArg): CartRequest
  {
    CartRequest(UserCart, id, RemovalQuantity(arg))
  }

  /** `removeCart` as intended: sent where the server can tell it apart
      from an add. */
  function RemoveCartRequestIntended(id: ProductId, arg: RemoveArg): CartRequest
  {
    CartRequest(RemovalRoute, id, RemovalQuantity(arg))
  }
}
