/**
 * The checkout page (`src/pages/Checkout.tsx`): the default and corrected address selection,
 * the Place Order gate, and `handlePlaceOrder` with its guards and its two payment paths.
 */
module Checkout {
  import opened Wrappers
  import opened Text
  import opened Domain
  import opened Validation
  import opened CartQueries
  import opened Effects

  /** A saved delivery address; only what checkout reads of it. */
  datatype Address = Address(id: string, isDefault: bool, phone: string)

  datatype PaymentMethod = Cod | Razorpay

  /** The `paymentMethod` string sent with the order. */
  function MethodName(m: PaymentMethod): string {
    match m
    case Cod => "cod"
    case Razorpay => "razorpay"
  }

  /** Index of the first address marked default. */
  function FirstDefault(addresses: seq<Address>): (r: Option<nat>)
    ensures r.Some? ==> r.value < |addresses| && addresses[r.value].isDefault
    ensures r.Some? ==> forall j :: 0 <= j < r.value ==> !addresses[j].isDefault
    ensures r.None? <==> forall j :: 0 <= j < |addresses| ==> !addresses[j].isDefault
  {
    if |addresses| == 0 then None
    else if addresses[0].isDefault then Some(0)
    else match FirstDefault(addresses[1..])
      case Some(i) => Some(i + 1)
      case None => None
  }

  /** `defaultAddress`: the first address marked default, else the first address, else none. */
  function DefaultAddress(addresses: seq<Address>): (r: Option<Address>)
    ensures r.None? <==> |addresses| == 0
    ensures r.Some? ==> r.value in addresses
    ensures (exists j :: 0 <= j < |addresses| && addresses[j].isDefault) ==> r.Some? && r.value.isDefault
    ensures FirstDefault(addresses).Some? ==> r == Some(addresses[FirstDefault(addresses).value])
    ensures (forall j :: 0 <= j < |addresses| ==> !addresses[j].isDefault) && |addresses| > 0 ==>
      r == Some(addresses[0])
  {
    match FirstDefault(addresses)
    case Some(i) => Some(addresses[i])
    case None => if |addresses| == 0 then None else Some(addresses[0])
  }

  /** The first selection: `defaultAddress?._id || ""`. */
  function InitialSelection(addresses: seq<Address>): string {
    match DefaultAddress(addresses)
    case Some(a) => Or(a.id, "")
    case None => ""
  }

  predicate IsAddressId(addresses: seq<Address>, id: string) {
    exists j :: 0 <= j < |addresses| && addresses[j].id == id
  }

  /** The render-time correction: a selection that names no address is replaced by the default
      address's id, when there is a default and the selection is not already that id. */
  function CorrectedSelection(addresses: seq<Address>, selected: string): string {
    var d := DefaultAddress(addresses);
    if !IsAddressId(addresses, selected) && d.Some? && selected != d.value.id then d.value.id else selected
  }

  /** Once there is an address the corrected selection always names one... */
  lemma CorrectedIsAnAddress(addresses: seq<Address>, selected: string)
    requires |addresses| > 0
    ensures IsAddressId(addresses, CorrectedSelection(addresses, selected))
  {
    var d := DefaultAddress(addresses);
    var j :| 0 <= j < |addresses| && addresses[j] == d.value;
    assert addresses[j].id == d.value.id;
  }

  /** ...a selection that already names one is kept, and the correction is idempotent. */
  lemma CorrectionKeepsValidAndSettles(addresses: seq<Address>, selected: string)
    ensures IsAddressId(addresses, selected) ==> CorrectedSelection(addresses, selected) == selected
    ensures CorrectedSelection(addresses, CorrectedSelection(addresses, selected)) == CorrectedSelection(addresses, selected)
  {
    if |addresses| > 0 {
      CorrectedIsAnAddress(addresses, selected);
    }
  }

  /** Without addresses nothing is corrected. */
  lemma NoAddressesNoCorrection(selected: string)
    ensures CorrectedSelection([], selected) == selected
  {
  }

  // ---------------------------------------------------------------------------------------

  /** The Place Order button's `disabled` flag. */
  predicate PlaceOrderDisabled(createPending: bool, validatingStock: bool, selected: string,
                               items: seq<CartItem>, validations: Option<seq<CartItemValidation>>)
  {
    createPending || validatingStock || selected == "" || |items| == 0 || HasStockIssues(validations)
  }

  /** What each outside step answers: the Razorpay order request, the configured key, the
      checkout window, the signature check, the order request (the new order's id) and the
      cart clear. */
  datatype Answers = Answers(
    razorpayOrder: Result<(), Thrown>,
    razorpayKey: string,
    payment: Result<(), Thrown>,
    verify: Result<(), Thrown>,
    createOrder: Result<string, Thrown>,
    clearCart: Result<CartResponse, Thrown>)

  const NoAddressMessage := "Please select or add an address"
  const EmptyCartMessage := "Your cart is empty"
  const StockIssuesMessage := "Some items in your cart have stock issues. Please go back to cart and update quantities."
  const NoKeyMessage := "Razorpay key not configured. Please contact support."
  const CancelledMessage := "Payment cancelled by user"
  const PlacedMessage := "Order placed successfully!"

  /** The outer `catch`: the response's `error`, else the thrown `message`, else a default. */
  function OrderFailure(e: Thrown): seq<Effect> {
    var bodyError := if e.response.Some? then e.response.value.error else "";
    [Notify(ErrorToast, Or(bodyError, Or(e.message, "Failed to place order. Please try again.")))]
  }

  /** The payment `catch`: an `Error`'s message or a default; a cancelled window is only info. */
  function PaymentFailure(e: Thrown): (r: seq<Effect>)
    ensures |r| == 1 && r[0].Notify?
    ensures r[0].level == InfoToast <==> e.isError && e.message == CancelledMessage
    ensures r[0].level == InfoToast || r[0].level == ErrorToast
  {
    var message := if e.isError then e.message else "Payment failed. Please try again.";
    if message == CancelledMessage then [Notify(InfoToast, "Payment was cancelled")]
    else [Notify(ErrorToast, message)]
  }

  /** Order creation, cart clear and the success report, with `onFailure` for a failed step. */
  function Completion(addressId: string, m: PaymentMethod, a: Answers, onFailure: Thrown -> seq<Effect>)
    : seq<Effect>
  {
    [CreateOrder(addressId, MethodName(m))] +
    match a.createOrder
    case Failure(e) => onFailure(e)
    case Success(orderId) =>
      [Send(ClearCommand)] +
      match a.clearCart
      case Failure(e) => onFailure(e)
      case Success(_) => [Notify(SuccessToast, PlacedMessage), Navigate("/orders/" + orderId)]
  }

  function RazorpayTrace(addressId: string, a: Answers): seq<Effect> {
    [CreatePaymentOrder] +
    if a.razorpayOrder.Failure? then OrderFailure(a.razorpayOrder.error)
    else if a.razorpayKey == "" then [Notify(ErrorToast, NoKeyMessage)]
    else
      [OpenPayment] +
      if a.payment.Failure? then PaymentFailure(a.payment.error)
      else
        [VerifyPayment] +
        if a.verify.Failure? then PaymentFailure(a.verify.error)
        else Completion(addressId, Razorpay, a, PaymentFailure)
  }

  /** Everything `handlePlaceOrder` does, in order. */
  function PlaceOrderTrace(selected: string, m: PaymentMethod, items: seq<CartItem>,
                           validations: Option<seq<CartItemValidation>>, a: Answers): seq<Effect>
  {
    if selected == "" then [Notify(ErrorToast, NoAddressMessage)]
    else if |items| == 0 then [Notify(ErrorToast, EmptyCartMessage)]
    else if HasStockIssues(validations) then [Notify(ErrorToast, StockIssuesMessage), Navigate("/cart")]
    else if m == Razorpay then RazorpayTrace(selected, a)
    else Completion(selected, Cod, a, OrderFailure)
  }

  /** Whether the run gets as far as requesting the order. */
  predicate ReachesOrder(selected: string, m: PaymentMethod, items: seq<CartItem>,
                         validations: Option<seq<CartItemValidation>>, a: Answers)
  {
    selected != "" && |items| > 0 && !HasStockIssues(validations)
    && (m == Razorpay ==>
          a.razorpayOrder.Success? && a.razorpayKey != "" && a.payment.Success? && a.verify.Success?)
  }

  predicate IsServerStep(e: Effect) {
    e.CreateOrder? || e.Send? || e.CreatePaymentOrder?
  }

  // ---------------------------------------------------------------------------------------

  /** The guards run in order (address, then empty cart, then stock), each ends the run with one
      error, the stock guard goes back to the cart, and none of them reaches the server. */
  lemma GuardsReachNoServer(selected: string, m: PaymentMethod, items: seq<CartItem>,
                            validations: Option<seq<CartItemValidation>>, a: Answers)
    requires selected == "" || |items| == 0 || HasStockIssues(validations)
    ensures var t := PlaceOrderTrace(selected, m, items, validations, a);
      t[0].Notify? && t[0].level == ErrorToast
      && (forall k :: 0 <= k < |t| ==> !IsServerStep(t[k]))
      && (selected == "" ==> t[0].text == NoAddressMessage)
      && (selected != "" && |items| == 0 ==> t[0].text == EmptyCartMessage)
      && (selected != "" && |items| > 0 ==> t == [Notify(ErrorToast, StockIssuesMessage), Navigate("/cart")])
  {
  }

  /** An enabled button passes every guard: the run starts with a request to the server. */
  lemma EnabledButtonPassesGuards(createPending: bool, validatingStock: bool, selected: string, m: PaymentMethod,
                                  items: seq<CartItem>, validations: Option<seq<CartItemValidation>>, a: Answers)
    requires !PlaceOrderDisabled(createPending, validatingStock, selected, items, validations)
    ensures var t := PlaceOrderTrace(selected, m, items, validations, a);
      t[0] == (if m == Razorpay then CreatePaymentOrder else CreateOrder(selected, "cod"))
  {
  }

  lemma CompletionShape(addressId: string, m: PaymentMethod, a: Answers, onFailure: Thrown -> seq<Effect>)
    requires forall e :: |onFailure(e)| == 1 && onFailure(e)[0].Notify? && onFailure(e)[0].level != SuccessToast
    ensures var t := Completion(addressId, m, a, onFailure);
      t[0] == CreateOrder(addressId, MethodName(m))
      && (forall k :: 0 <= k < |t| && t[k] == Send(ClearCommand) ==> k == 1 && a.createOrder.Success?)
      && (Notify(SuccessToast, PlacedMessage) in t <==> a.createOrder.Success? && a.clearCart.Success?)
  {
    var t := Completion(addressId, m, a, onFailure);
    if a.createOrder.Failure? {
      assert t == [CreateOrder(addressId, MethodName(m))] + onFailure(a.createOrder.error);
    } else if a.clearCart.Failure? {
      assert t == [CreateOrder(addressId, MethodName(m)), Send(ClearCommand)] + onFailure(a.clearCart.error);
    } else {
      assert t == [CreateOrder(addressId, MethodName(m)), Send(ClearCommand),
                   Notify(SuccessToast, PlacedMessage), Navigate("/orders/" + a.createOrder.value)];
    }
  }

  lemma FailuresAreOneNotice()
    ensures forall e :: |OrderFailure(e)| == 1 && OrderFailure(e)[0].Notify? && OrderFailure(e)[0].level != SuccessToast
    ensures forall e :: |PaymentFailure(e)| == 1 && PaymentFailure(e)[0].Notify? && PaymentFailure(e)[0].level != SuccessToast
  {
  }

  /** Whether the Razorpay steps before the shared completion all went through. */
  predicate PaymentPassed(a: Answers) {
    a.razorpayOrder.Success? && a.razorpayKey != "" && a.payment.Success? && a.verify.Success?
  }

  /** The Razorpay path is its three payment steps followed by the completion, or it stops
      before the completion with one notice. */
  lemma RazorpayShape(addressId: string, a: Answers)
    ensures PaymentPassed(a) ==>
      RazorpayTrace(addressId, a)
      == [CreatePaymentOrder, OpenPayment, VerifyPayment] + Completion(addressId, Razorpay, a, PaymentFailure)
    ensures !PaymentPassed(a) ==>
      var t := RazorpayTrace(addressId, a);
      2 <= |t| <= 4 && t[|t| - 1].Notify? && t[|t| - 1].level != SuccessToast
      && forall k :: 0 <= k < |t| - 1 ==> t[k] in [CreatePaymentOrder, OpenPayment, VerifyPayment]
  {
    FailuresAreOneNotice();
    var t := RazorpayTrace(addressId, a);
    if a.razorpayOrder.Failure? {
      assert t == [CreatePaymentOrder] + OrderFailure(a.razorpayOrder.error);
    } else if a.razorpayKey == "" {
      assert t == [CreatePaymentOrder, Notify(ErrorToast, NoKeyMessage)];
    } else if a.payment.Failure? {
      assert t == [CreatePaymentOrder, OpenPayment] + PaymentFailure(a.payment.error);
    } else if a.verify.Failure? {
      assert t == [CreatePaymentOrder, OpenPayment, VerifyPayment] + PaymentFailure(a.verify.error);
    }
  }

  /** The cart is cleared only right after an order request that succeeded, on either path... */
  lemma ClearOnlyAfterOrder(selected: string, m: PaymentMethod, items: seq<CartItem>,
                            validations: Option<seq<CartItemValidation>>, a: Answers, k: nat)
    requires var t := PlaceOrderTrace(selected, m, items, validations, a);
      k < |t| && t[k] == Send(ClearCommand)
    ensures var t := PlaceOrderTrace(selected, m, items, validations, a);
      k > 0 && t[k - 1] == CreateOrder(selected, MethodName(m)) && a.createOrder.Success?
      && ReachesOrder(selected, m, items, validations, a)
  {
    FailuresAreOneNotice();
    var t := PlaceOrderTrace(selected, m, items, validations, a);
    if selected == "" || |items| == 0 || HasStockIssues(validations) {
      GuardsReachNoServer(selected, m, items, validations, a);
      assert IsServerStep(t[k]);
    } else if m == Cod {
      CompletionShape(selected, Cod, a, OrderFailure);
    } else {
      RazorpayShape(selected, a);
      if PaymentPassed(a) {
        var c := Completion(selected, Razorpay, a, PaymentFailure);
        CompletionShape(selected, Razorpay, a, PaymentFailure);
        assert t[k] == c[k - 3];
      }
    }
  }

  /** ...and the success report comes exactly when the order was requested and both the order
      request and the clear succeeded. */
  lemma PlacedIff(selected: string, m: PaymentMethod, items: seq<CartItem>,
                  validations: Option<seq<CartItemValidation>>, a: Answers)
    ensures Notify(SuccessToast, PlacedMessage) in PlaceOrderTrace(selected, m, items, validations, a)
        <==> ReachesOrder(selected, m, items, validations, a) && a.createOrder.Success? && a.clearCart.Success?
  {
    FailuresAreOneNotice();
    var t := PlaceOrderTrace(selected, m, items, validations, a);
    if selected == "" || |items| == 0 || HasStockIssues(validations) {
      GuardsReachNoServer(selected, m, items, validations, a);
    } else if m == Cod {
      CompletionShape(selected, Cod, a, OrderFailure);
    } else {
      RazorpayShape(selected, a);
      if PaymentPassed(a) {
        CompletionShape(selected, Razorpay, a, PaymentFailure);
      }
    }
  }

  /** A window closed by the user ends a Razorpay run with an info notice, not an error. */
  lemma CancelledIsInfo(selected: string, items: seq<CartItem>, validations: Option<seq<CartItemValidation>>,
                        a: Answers)
    requires selected != "" && |items| > 0 && !HasStockIssues(validations)
    requires a.razorpayOrder.Success? && a.razorpayKey != ""
    requires a.payment == Failure(Thrown(None, true, CancelledMessage))
    ensures PlaceOrderTrace(selected, Razorpay, items, validations, a)
         == [CreatePaymentOrder, OpenPayment, Notify(InfoToast, "Payment was cancelled")]
  {
  }

  // ---------------------------------------------------------------------------------------

  /** The checkout page state that `handlePlaceOrder` and the render-time correction touch. */
  class CheckoutView {
    var selectedAddressId: string
    var paymentMethod: PaymentMethod
    var effects: seq<Effect>
    const cache: QueryCache

    constructor (addresses: seq<Address>, cache: QueryCache)
      ensures selectedAddressId == InitialSelection(addresses) && paymentMethod == Cod && effects == []
      ensures this.cache == cache
    {
      selectedAddressId := InitialSelection(addresses);
      paymentMethod := Cod;
      effects := [];
      this.cache := cache;
    }

    /** The correction made while rendering. */
    method CorrectSelection(addresses: seq<Address>)
      modifies this
      ensures selectedAddressId == CorrectedSelection(addresses, old(selectedAddressId))
      ensures paymentMethod == old(paymentMethod) && effects == old(effects)
    {
      var current := FindAddress(addresses, selectedAddressId);
      var d := DefaultAddress(addresses);
      if current.None? && d.Some? && selectedAddressId != d.value.id {
        selectedAddressId := d.value.id;
      }
    }

    /** `handlePlaceOrder`. A successful order request invalidates the cart, and so does a
        successful clear. */
    method HandlePlaceOrder(items: seq<CartItem>, validations: Option<seq<CartItemValidation>>, a: Answers)
      modifies this, cache
      ensures effects == old(effects) + PlaceOrderTrace(selectedAddressId, paymentMethod, items, validations, a)
      ensures selectedAddressId == old(selectedAddressId) && paymentMethod == old(paymentMethod)
      ensures cache.snapshot == old(cache.snapshot)
      ensures cache.events == old(cache.events) +
        (if ReachesOrder(selectedAddressId, paymentMethod, items, validations, a) && a.createOrder.Success? then
           [Invalidate] + (if a.clearCart.Success? then [Invalidate] else [])
         else [])
    {
      var trace := PlaceOrder(cache, selectedAddressId, paymentMethod, items, validations, a);
      effects := effects + trace;
    }
  }

  /** The steps of `handlePlaceOrder`, as the effects they produce. */
  method PlaceOrder(cache: QueryCache, selected: string, m: PaymentMethod, items: seq<CartItem>,
                    validations: Option<seq<CartItemValidation>>, a: Answers)
    returns (trace: seq<Effect>)
    modifies cache
    ensures trace == PlaceOrderTrace(selected, m, items, validations, a)
    ensures cache.snapshot == old(cache.snapshot)
    ensures cache.events == old(cache.events) +
      (if ReachesOrder(selected, m, items, validations, a) && a.createOrder.Success? then
         [Invalidate] + (if a.clearCart.Success? then [Invalidate] else [])
       else [])
  {
    if selected == "" {
      return [Notify(ErrorToast, NoAddressMessage)];
    }
    if |items| == 0 {
      return [Notify(ErrorToast, EmptyCartMessage)];
    }
    if HasStockIssues(validations) {
      return [Notify(ErrorToast, StockIssuesMessage), Navigate("/cart")];
    }
    if m == Razorpay {
      trace := PayWithRazorpay(cache, selected, a);
    } else {
      trace := Complete(cache, selected, Cod, a, OrderFailure);
    }
  }

  /** The Razorpay path: payment order, key check, checkout window, signature check, then the
      shared completion; a failure before the window goes to the outer handler. */
  method PayWithRazorpay(cache: QueryCache, addressId: string, a: Answers) returns (trace: seq<Effect>)
    modifies cache
    ensures trace == RazorpayTrace(addressId, a)
    ensures cache.snapshot == old(cache.snapshot)
    ensures cache.events == old(cache.events) +
      (if a.razorpayOrder.Success? && a.razorpayKey != "" && a.payment.Success? && a.verify.Success?
          && a.createOrder.Success? then
         [Invalidate] + (if a.clearCart.Success? then [Invalidate] else [])
       else [])
  {
    trace := [CreatePaymentOrder];
    if a.razorpayOrder.Failure? {
      return trace + OrderFailure(a.razorpayOrder.error);
    }
    if a.razorpayKey == "" {
      return trace + [Notify(ErrorToast, NoKeyMessage)];
    }
    trace := trace + [OpenPayment];
    if a.payment.Failure? {
      return trace + PaymentFailure(a.payment.error);
    }
    trace := trace + [VerifyPayment];
    if a.verify.Failure? {
      return trace + PaymentFailure(a.verify.error);
    }
    var rest := Complete(cache, addressId, Razorpay, a, PaymentFailure);
    trace := trace + rest;
  }

  /** The steps shared by both payment paths: request the order, clear the cart, report. */
  method Complete(cache: QueryCache, addressId: string, m: PaymentMethod, a: Answers, onFailure: Thrown -> seq<Effect>)
    returns (trace: seq<Effect>)
    modifies cache
    ensures trace == Completion(addressId, m, a, onFailure)
    ensures cache.snapshot == old(cache.snapshot)
    ensures cache.events == old(cache.events) +
      (if a.createOrder.Success? then [Invalidate] + (if a.clearCart.Success? then [Invalidate] else []) else [])
  {
    trace := [CreateOrder(addressId, MethodName(m))];
    if a.createOrder.Failure? {
      return trace + onFailure(a.createOrder.error);
    }
    cache.Record(Invalidate);
    var command := cache.ClearCart(a.clearCart);
    trace := trace + [Send(command)];
    if a.clearCart.Failure? {
      return trace + onFailure(a.clearCart.error);
    }
    trace := trace + [Notify(SuccessToast, PlacedMessage), Navigate("/orders/" + a.createOrder.value)];
  }

  /** `addresses.find((a) => a._id === id)`. */
  method FindAddress(addresses: seq<Address>, id: string) returns (found: Option<Address>)
    ensures found.None? <==> !IsAddressId(addresses, id)
    ensures found.Some? ==> found.value in addresses && found.value.id == id
  {
    var i := 0;
    while i < |addresses|
      invariant 0 <= i <= |addresses|
      invariant forall j :: 0 <= j < i ==> addresses[j].id != id
    {
      if addresses[i].id == id {
        return Some(addresses[i]);
      }
      i := i + 1;
    }
    return None;
  }
}
