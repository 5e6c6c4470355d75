/** The payment step of checkout
    (frontend/src/components/Checkout/PaymentForm.tsx:22-96, 181, 201,
    221): the card-field patterns and `onSubmit`, which turns the cart and
    the shipping details into an order request and clears the cart only
    once the order exists. `createOrder` sends the request through the API
    client, so its interceptors may refresh or clear the tokens; the order
    endpoint's replies are an input. */
module PaymentForm {
  import opened Common
  import opened CartStore
  import opened OrderCreate
  import Tokens
  import ApiClient

  // ------------------------------------------------------ card-field patterns

  /** `/^[0-9]{16}$/` */
  predicate IsCardNumber(s: string)
  {
    |s| == 16 && AllDigits(s)
  }

  /** `/^(0[1-9]|1[0-2])\/([0-9]{2})$/` */
  predicate IsExpiry(s: string)
  {
    && |s| == 5 && s[2] == '/'
    && ((s[0] == '0' && '1' <= s[1] <= '9') || (s[0] == '1' && '0' <= s[1] <= '2'))
    && IsDigit(s[3]) && IsDigit(s[4])
  }

  /** `/^[0-9]{3,4}$/` */
  predicate IsCvv(s: string)
  {
    (|s| == 3 || |s| == 4) && AllDigits(s)
  }

  /** The expiry pattern accepts exactly "MM/YY" with MM a month number
      from 1 to 12 written with two digits, and any two-digit year. */
  lemma ExpiryIsMonthSlashYear(s: string)
    ensures IsExpiry(s) <==>
              && |s| == 5 && s[2] == '/'
              && AllDigits(s[..2]) && 1 <= ParseDigits(s[..2]) <= 12
              && AllDigits(s[3..])
  {
    if |s| == 5 && AllDigits(s[..2]) {
      var mm := s[..2];
      assert mm[..1][..0] == "" && mm[..1][0] == s[0] && mm[1] == s[1];
      assert ParseDigits(mm[..1]) == DigitValue(s[0]);
      assert ParseDigits(mm) == 10 * DigitValue(s[0]) + DigitValue(s[1]);
      assert IsDigit(s[0]) && IsDigit(s[1]) by {
        assert mm[0] == s[0] && mm[1] == s[1];
      }
    }
    if |s| == 5 {
      assert AllDigits(s[3..]) <==> IsDigit(s[3]) && IsDigit(s[4]) by {
        assert s[3..][0] == s[3] && s[3..][1] == s[4];
      }
    }
  }

  /** The card number and the CVV are numbers of at most sixteen and four
      digits. */
  lemma CardFieldsAreBoundedNumbers(s: string)
    ensures IsCardNumber(s) ==> ParseDigits(s) < Pow10(16)
    ensures IsCvv(s) ==> ParseDigits(s) < 10000
    ensures IsCardNumber(s) ==> !IsCvv(s) && !IsExpiry(s)
  {
    if AllDigits(s) {
      ParseDigitsBelow(s);
      if |s| == 3 {
        assert Pow10(3) == 1000;
      } else if |s| == 4 {
        assert Pow10(4) == 10000;
      }
    }
  }

  // ----------------------------------------------------------------- onSubmit

  /** The shipping step's form values. */
  datatype ShippingDetails = ShippingDetails(
    firstName: string, lastName: string, email: string, address: string, city: string,
    state: string, postalCode: string, country: string, phone: string)

  /** One entry of the request's `items`. */
  datatype OrderItemPayload = OrderItemPayload(product: int, quantity: int, color: string, size: string)

  /** The order request. Its wire names are the snake_case forms of the
      shipping fields (`first_name`, `postal_code`, ...), `items` and
      `payment_method`. */
  datatype OrderPayload = OrderPayload(shipping: ShippingFields, items: seq<OrderItemPayload>, paymentMethod: string)

  /** The request built from the shipping details, the cart and the chosen
      method: every shipping field under its snake_case name, and one item
      per cart line in cart order. */
  function BuildPayload(details: ShippingDetails, lines: seq<CartItem>, paymentMethod: string): (r: OrderPayload)
    ensures |r.items| == |lines| && r.paymentMethod == paymentMethod
    ensures forall i :: 0 <= i < |lines| ==>
              && r.items[i].product == lines[i].productId && r.items[i].quantity == lines[i].quantity
              && r.items[i].color == lines[i].color && r.items[i].size == lines[i].size
    ensures r.shipping == ShippingFields(details.firstName, details.lastName, details.email, details.address,
                                         details.city, details.state, details.postalCode, details.country,
                                         details.phone)
  {
    OrderPayload(
      ShippingFields(details.firstName, details.lastName, details.email, details.address, details.city,
                     details.state, details.postalCode, details.country, details.phone),
      seq(|lines|, i requires 0 <= i < |lines| =>
        OrderItemPayload(lines[i].productId, lines[i].quantity, lines[i].color, lines[i].size)),
      paymentMethod)
  }

  /** The order lines the backend validates out of the request, given the
      current price of each product. */
  function ServerItems(items: seq<OrderItemPayload>, priceOf: int -> int): (r: seq<ItemInput>)
    ensures |r| == |items|
    ensures forall i :: 0 <= i < |items| ==>
              && r[i].productId == items[i].product && r[i].productPrice == priceOf(items[i].product)
              && r[i].quantity == items[i].quantity
              && r[i].color == Some(items[i].color) && r[i].size == Some(items[i].size)
  {
    seq(|items|, i requires 0 <= i < |items| =>
      ItemInput(items[i].product, priceOf(items[i].product), None, items[i].quantity,
                Some(items[i].color), Some(items[i].size)))
  }

  /** When every cart line's price is the product's current price, the
      order the backend records totals exactly what the cart showed, and
      every item row keeps its cart line's color and size. */
  lemma {:induction false} OrderTotalMatchesCart(lines: seq<CartItem>, details: ShippingDetails,
                                                 paymentMethod: string, priceOf: int -> int)
    requires forall i :: 0 <= i < |lines| ==> priceOf(lines[i].productId) == lines[i].price
    ensures var inputs := ServerItems(BuildPayload(details, lines, paymentMethod).items, priceOf);
      && Total(inputs) == TotalOf(lines)
      && forall i :: 0 <= i < |lines| ==>
           ItemRowOf(0, inputs[i]).color == lines[i].color && ItemRowOf(0, inputs[i]).size == lines[i].size
    decreases |lines|
  {
    var inputs := ServerItems(BuildPayload(details, lines, paymentMethod).items, priceOf);
    if lines != [] {
      var init := lines[..|lines| - 1];
      OrderTotalMatchesCart(init, details, paymentMethod, priceOf);
      assert inputs[..|inputs| - 1] == ServerItems(BuildPayload(details, init, paymentMethod).items, priceOf);
    }
  }

  /** The order request `createOrder` sends through the API client
      (frontend/src/utils/api.ts:114-118): the server's replies, the reply
      the response interceptor's refresh gets should it run, and the
      reading of the new order's id from an ok response's body. */
  datatype OrderCall = OrderCall(server: ApiClient.Server, refreshReply: Tokens.RefreshReply,
                                 orderIdOf: ApiClient.Response -> int)

  /** The order request as the API client runs it. */
  function OrderTrace(storage: map<string, string>, call: OrderCall): ApiClient.Trace
  {
    ApiClient.FreshCall(storage, call.server, call.refreshReply)
  }

  const EmptyCartMessage := "Your cart is empty"
  const PaymentFailedMessage := "There was a problem processing your payment. Please try again."

  class PaymentFormState {
    var isProcessing: bool
    var error: Option<string>
    var showAlert: bool
    const cart: Cart
    const tokens: Tokens.TokenStore

    constructor (cart: Cart, tokens: Tokens.TokenStore)
      ensures !isProcessing && error == None && !showAlert && this.cart == cart && this.tokens == tokens
    {
      isProcessing := false;
      error := None;
      showAlert := false;
      this.cart := cart;
      this.tokens := tokens;
    }

    /** `onSubmit`. Returns the request sent (None when none was) and the
        route navigated to with the new order's id (None when it stays).
        The tokens end as the order request's interceptors leave them. */
    method OnSubmit(details: ShippingDetails, paymentMethod: string, call: OrderCall)
      returns (sent: Option<OrderPayload>, navigation: Option<(string, int)>)
      modifies this, cart, tokens
      ensures old(cart.items) == [] ==>
                && sent == None && navigation == None
                && error == Some(EmptyCartMessage) && showAlert
                && isProcessing == old(isProcessing)
                && cart.items == old(cart.items) && cart.persisted == old(cart.persisted)
                && tokens.storage == old(tokens.storage)
      ensures old(cart.items) != [] ==>
                && sent == Some(BuildPayload(details, old(cart.items), paymentMethod))
                && !isProcessing
                && tokens.storage == OrderTrace(old(tokens.storage), call).storage
      ensures var t := OrderTrace(old(tokens.storage), call);
              old(cart.items) != [] && t.result.Done? ==>
                && cart.items == [] && cart.persisted == []
                && navigation == Some(("/profile", call.orderIdOf(t.result.response)))
                && error == None && showAlert == old(showAlert)
      ensures old(cart.items) != [] && OrderTrace(old(tokens.storage), call).result.Failed? ==>
                && cart.items == old(cart.items) && cart.persisted == old(cart.persisted)
                && navigation == None
                && error == Some(PaymentFailedMessage) && showAlert
    {
      if |cart.items| == 0 {
        error := Some(EmptyCartMessage);
        showAlert := true;
        return None, None;
      }
      isProcessing := true;
      error := None;
      var lines := cart.items;
      var orderItems := seq(|lines|, i requires 0 <= i < |lines| =>
        OrderItemPayload(lines[i].productId, lines[i].quantity, lines[i].color, lines[i].size));
      var shipping := ShippingFields(details.firstName, details.lastName, details.email, details.address,
                                     details.city, details.state, details.postalCode, details.country,
                                     details.phone);
      sent := Some(OrderPayload(shipping, orderItems, paymentMethod));
      var result := ApiClient.Send(tokens, call.server, call.refreshReply);
      match result {
        case Done(response) =>
          cart.ClearCart();
          navigation := Some(("/profile", call.orderIdOf(response)));
        case Failed(_) =>
          error := Some(PaymentFailedMessage);
          showAlert := true;
          navigation := None;
      }
      isProcessing := false;
    }
  }
}
