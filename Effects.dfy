/**
 * The side effects of the page handlers, in the order a handler performs them: notifications,
 * navigation, the cart-changed tick, requests to the server and the post-login sync. Also the
 * rule that turns a failed add-to-cart into a warning or an error.
 */
module Effects {
  import opened Text
  import opened Domain
  import opened GuestCart
  import opened CartQueries

  /** The `toast` variant a message is shown with. */
  datatype ToastLevel = SuccessToast | InfoToast | WarningToast | ErrorToast

  datatype Effect =
    | Notify(level: ToastLevel, text: string)
    | CartUpdated                                   // `triggerCartUpdate()`
    | MarkUpdating(productId: string)               // added to `updatingItems`
    | UnmarkUpdating(productId: string)             // deleted from `updatingItems`
    | Send(command: CartCommand)                    // a server cart mutation
    | Navigate(path: string)
    | AuthSet(token: string)                        // `setAuth(user, token)`
    | SyncSent(items: seq<SyncItem>)                // the `/cart/sync` post
    | CreatePaymentOrder                            // the Razorpay order request
    | OpenPayment                                   // the Razorpay checkout window
    | VerifyPayment
    | CreateOrder(addressId: string, paymentMethod: string)   // the order request

  /** Whether a failed add-to-cart message speaks of stock, ignoring case. */
  predicate IsStockMessage(message: string) {
    Contains(Lower(message), "stock") || Contains(Lower(message), "insufficient")
  }

  /** Stock-related add-to-cart failures are warnings; every other failure is an error. */
  function AddFailureLevel(message: string): (level: ToastLevel)
    ensures level == WarningToast <==> IsStockMessage(message)
    ensures level == WarningToast || level == ErrorToast
  {
    if IsStockMessage(message) then WarningToast else ErrorToast
  }

  /** The notice of a failed add-to-cart: the response's error or a default, classified. */
  function AddFailureNotice(e: Thrown): (r: seq<Effect>)
    ensures |r| == 1 && r[0].Notify?
  {
    var message := ResponseErrorOr(e, "Failed to add to cart");
    [Notify(AddFailureLevel(message), message)]
  }

  /** The notice shows the response's error or the default, as a warning exactly when that text
      is a stock message. */
  lemma AddFailureNoticeClassified(e: Thrown)
    ensures AddFailureNotice(e)[0].text == ResponseErrorOr(e, "Failed to add to cart")
    ensures AddFailureNotice(e)[0].level == WarningToast <==> IsStockMessage(AddFailureNotice(e)[0].text)
  {
  }

  /** The classification does not depend on letter case. */
  lemma AddFailureLevelIgnoresCase(message: string)
    ensures AddFailureLevel(Lower(message)) == AddFailureLevel(message)
  {
    LowerIdempotent(message);
  }

  /** A message holding "stock" anywhere, in any case, is a warning. */
  lemma StockAnywhereWarns(message: string, k: nat)
    requires OccursAt(Lower(message), "stock", k)
    ensures AddFailureLevel(message) == WarningToast
  {
    ContainsAt(Lower(message), "stock", k);
  }

  /** `Only ${n} item${n > 1 ? "s" : ""} available in stock` followed by `suffix`. */
  function StockLimitMessage(n: int, suffix: string): string {
    "Only " + IntToString(n) + " item" + (if n > 1 then "s" else "") + " available in stock" + suffix
  }
}
