/**
 * The cart page (`src/pages/Cart.tsx`): which lines and verdicts it shows, each line's stock
 * status and increment button, the checkout gate, and the quantity and remove handlers with the
 * `updatingItems` set they maintain.
 */
module CartPage {
  import opened Wrappers
  import opened Text
  import opened Domain
  import opened GuestCart
  import opened Validation
  import opened CartQueries
  import opened Effects

  /** The lines shown: the server cart's when signed in, the loaded guest lines otherwise. */
  function DisplayItems(isAuthenticated: bool, cartData: Option<CartResponse>, guestItems: seq<CartItem>)
    : seq<CartItem>
  {
    if isAuthenticated then CachedItems(cartData) else guestItems
  }

  /** The verdicts shown, chosen the same way. */
  function DisplayValidations(isAuthenticated: bool, validations: Option<seq<CartItemValidation>>,
                              guestValidations: Option<seq<CartItemValidation>>): Option<seq<CartItemValidation>>
  {
    if isAuthenticated then validations else guestValidations
  }

  /** Whether a verdict is taken for a line's product: same id, or same slug as the line's key. */
  predicate MatchesLine(v: CartItemValidation, p: Product) {
    v.productId == p.id || v.productSlug == SlugOrId(p)
  }

  /** `displayValidations.find(...)`, as the index of the first matching verdict. */
  function FindValidation(vs: seq<CartItemValidation>, p: Product): (r: Option<nat>)
    ensures r.Some? ==> r.value < |vs| && MatchesLine(vs[r.value], p)
    ensures r.Some? ==> forall j :: 0 <= j < r.value ==> !MatchesLine(vs[j], p)
    ensures r.None? <==> forall j :: 0 <= j < |vs| ==> !MatchesLine(vs[j], p)
  {
    if |vs| == 0 then None
    else if MatchesLine(vs[0], p) then Some(0)
    else match FindValidation(vs[1..], p)
      case Some(i) => Some(i + 1)
      case None => None
  }

  /** What a line shows about stock. */
  datatype LineStatus = LineStatus(isOutOfStock: bool, isInsufficientStock: bool, availableStock: int)

  /** A line is out of stock when its verdict says so or its `stockQuantity` is 0; it is short
      only when its verdict says so; its available stock is the verdict's, else `stockQuantity`. */
  function StatusOf(validations: Option<seq<CartItemValidation>>, item: CartItem): LineStatus {
    var found := if validations.Some? then FindValidation(validations.value, item.product) else None;
    match found
    case Some(k) =>
      var v := validations.value[k];
      LineStatus(v.isOutOfStock || item.product.stockQuantity == 0, v.isInsufficientStock, v.availableStock)
    case None =>
      LineStatus(item.product.stockQuantity == 0, false, item.product.stockQuantity)
  }

  /** The "+" button of a line. */
  predicate IncrementDisabled(item: CartItem, status: LineStatus, isUpdating: bool, cartFetching: bool) {
    item.quantity >= status.availableStock || isUpdating || cartFetching
  }

  /** "Proceed to Checkout" is disabled while some verdict reports a stock issue. */
  predicate CheckoutDisabled(validations: Option<seq<CartItemValidation>>) {
    HasStockIssues(validations)
  }

  /** Only a signed-in user gets the checkout button; a guest gets the link to log in. */
  predicate CheckoutShown(isAuthenticated: bool) {
    isAuthenticated
  }

  /** The verdicts of the shown lines. */
  function InputsOf(items: seq<CartItem>): (r: seq<ValidationInput>)
    ensures |r| == |items|
    ensures forall k :: 0 <= k < |items| ==> r[k] == AsInput(items[k])
  {
    seq(|items|, k requires 0 <= k < |items| => AsInput(items[k]))
  }

  /** Lines that no verdict of another line can be mistaken for: distinct ids, and no line's
      verdict slug equal to another line's key. */
  predicate Distinguishable(items: seq<CartItem>) {
    forall i, j :: 0 <= i < |items| && 0 <= j < |items| && i != j ==>
      items[i].product.id != items[j].product.id && VerdictSlug(items[i].product) != SlugOrId(items[j].product)
  }

  // ---------------------------------------------------------------------------------------

  /** A line whose verdict has been computed shows exactly the verdict's stock. */
  lemma OwnVerdictStatus(vs: seq<CartItemValidation>, item: CartItem, k: nat)
    requires FindValidation(vs, item.product) == Some(k) && vs[k] == Verdict(item.product, item.quantity)
    ensures StatusOf(Some(vs), item) == LineStatus(
      AvailableStock(item.product) == 0 || item.product.stockQuantity == 0,
      item.quantity > AvailableStock(item.product),
      AvailableStock(item.product))
  {
  }

  /** Before any verdict, a line's status comes from its own `stockQuantity` alone. */
  lemma NoVerdictStatus(item: CartItem)
    ensures StatusOf(None, item) == LineStatus(item.product.stockQuantity == 0, false, item.product.stockQuantity)
  {
  }

  /** When every shown line has a product with an id, and lines are distinguishable, each line
      finds its own verdict. */
  lemma {:induction false} EachLineFindsOwnVerdict(items: seq<CartItem>, k: nat)
    requires k < |items| && Distinguishable(items)
    requires forall j :: 0 <= j < |items| ==> items[j].product.id != ""
    ensures FindValidation(ValidationsOf(InputsOf(items)), items[k].product) == Some(k)
    ensures ValidationsOf(InputsOf(items))[k] == Verdict(items[k].product, items[k].quantity)
  {
    var inputs := InputsOf(items);
    ValidationsAllJudged(inputs);
    var vs := ValidationsOf(inputs);
    var p := items[k].product;
    assert vs[k] == Verdict(p, items[k].quantity);
    assert MatchesLine(vs[k], p);
    forall j | 0 <= j < k ensures !MatchesLine(vs[j], p) {
      assert vs[j] == Verdict(items[j].product, items[j].quantity);
    }
  }

  /** The increment button of a line with its own verdict is enabled only while one more unit is
      still within the available stock. */
  lemma IncrementStaysWithinStock(vs: seq<CartItemValidation>, item: CartItem, k: nat, isUpdating: bool, cartFetching: bool)
    requires FindValidation(vs, item.product) == Some(k) && vs[k] == Verdict(item.product, item.quantity)
    requires !IncrementDisabled(item, StatusOf(Some(vs), item), isUpdating, cartFetching)
    ensures !Verdict(item.product, item.quantity + 1).isInsufficientStock
  {
    OwnVerdictStatus(vs, item, k);
  }

  /** The checkout gate is closed exactly when some shown line is short of stock. */
  lemma CheckoutGate(items: seq<CartItem>)
    ensures CheckoutDisabled(Some(ValidationsOf(InputsOf(items))))
        <==> exists k :: 0 <= k < |items| && ShortOfStock(AsInput(items[k]))
  {
    StockIssuesIff(InputsOf(items));
    if exists k :: 0 <= k < |items| && ShortOfStock(AsInput(items[k])) {
      var k :| 0 <= k < |items| && ShortOfStock(AsInput(items[k]));
      assert InputsOf(items)[k] == AsInput(items[k]);
    }
  }

  /** A product with `stockQuantity` 0 but legacy `stock` of 5, in a line of 1, is shown as out
      of stock while the checkout gate stays open: the line reads `stockQuantity` alone, the
      verdict falls back to `stock`. */
  lemma LegacyStockDisagreement(p: Product)
    requires p.id != "" && p.stockQuantity == 0 && p.stock == 5
    ensures StatusOf(Some(ValidationsOf(InputsOf([CartItem(p, 1)]))), CartItem(p, 1)).isOutOfStock
    ensures !CheckoutDisabled(Some(ValidationsOf(InputsOf([CartItem(p, 1)]))))
  {
    var items := [CartItem(p, 1)];
    CheckoutGate(items);
    assert Distinguishable(items);
    EachLineFindsOwnVerdict(items, 0);
  }

  // ---------------------------------------------------------------------------------------

  /** The page state: lines being updated, the loaded guest lines and the effects so far. */
  class CartView {
    var updatingItems: set<string>
    var guestItems: seq<CartItem>
    var loadingGuestCart: bool
    var effects: seq<Effect>
    const guest: GuestCartStore
    const cache: QueryCache

    constructor (guest: GuestCartStore, cache: QueryCache)
      ensures updatingItems == {} && guestItems == [] && loadingGuestCart && effects == []
      ensures this.guest == guest && this.cache == cache
    {
      updatingItems := {};
      guestItems := [];
      loadingGuestCart := true;
      effects := [];
      this.guest := guest;
      this.cache := cache;
    }

    /** `loadGuestCart`: the resolvable guest lines with their products, in guest order. */
    method LoadGuestCart(catalog: Catalog)
      modifies this
      ensures guestItems == ResolveLines(guest.Lines(), catalog) && !loadingGuestCart
      ensures updatingItems == old(updatingItems) && effects == old(effects)
    {
      loadingGuestCart := true;
      var guestCart := guest.GetGuestCart();
      guestItems := ResolveGuestCart(guestCart, catalog);
      loadingGuestCart := false;
    }

    /** `handleRemoveItem`: the line is marked, then removed on the server or from the guest cart.
        A signed-in removal that succeeds leaves the line marked; every other outcome unmarks it. */
    method HandleRemoveItem(isAuthenticated: bool, productId: string, productSlug: string,
                            answer: Result<CartResponse, Thrown>, catalog: Catalog)
      modifies this, guest, cache
      ensures effects == old(effects) + RemoveEffects(isAuthenticated, productId, answer)
      ensures updatingItems == old(updatingItems) + {productId} - (if StaysMarked(isAuthenticated, answer) then {} else {productId})
      ensures isAuthenticated ==>
        guest.stored == old(guest.stored) && guestItems == old(guestItems) && cache.snapshot == old(cache.snapshot)
        && cache.events == old(cache.events) + (if answer.Success? then [Invalidate, Refetch] else [])
      ensures !isAuthenticated ==>
        guest.stored == Some(RemoveSlug(old(guest.Lines()), productSlug))
        && guestItems == ResolveLines(guest.Lines(), catalog) && !loadingGuestCart
        && cache.snapshot == old(cache.snapshot) && cache.events == old(cache.events)
    {
      updatingItems := updatingItems + {productId};
      var trace;
      if isAuthenticated {
        trace := ServerRemove(cache, productId, answer);
      } else {
        guest.RemoveFromGuestCart(productSlug);
        LoadGuestCart(catalog);
        trace := [CartUpdated];
      }
      if !StaysMarked(isAuthenticated, answer) {
        updatingItems := updatingItems - {productId};
      }
      effects := effects + Marked(productId, trace, StaysMarked(isAuthenticated, answer));
    }

    /** `handleUpdateQuantity`: a quantity of 0 or less is a removal; otherwise the line is marked,
        updated on the server or in the guest cart, and unmarked whatever the outcome. */
    method HandleUpdateQuantity(isAuthenticated: bool, productId: string, productSlug: string,
                                newQuantity: int, answer: Result<CartResponse, Thrown>, catalog: Catalog)
      modifies this, guest, cache
      ensures newQuantity <= 0 ==>
        effects == old(effects) + RemoveEffects(isAuthenticated, productId, answer)
        && updatingItems == old(updatingItems) + {productId} - (if StaysMarked(isAuthenticated, answer) then {} else {productId})
    ensures newQuantity <= 0 && isAuthenticated ==>
        guest.stored == old(guest.stored) && guestItems == old(guestItems) && cache.snapshot == old(cache.snapshot)
        && cache.events == old(cache.events) + (if answer.Success? then [Invalidate, Refetch] else [])
    ensures newQuantity <= 0 && !isAuthenticated ==>
        guest.stored == Some(RemoveSlug(old(guest.Lines()), productSlug))
        && guestItems == ResolveLines(guest.Lines(), catalog) && !loadingGuestCart
        && cache.snapshot == old(cache.snapshot) && cache.events == old(cache.events)
      ensures newQuantity > 0 ==>
        effects == old(effects) + UpdateEffects(isAuthenticated, productId, newQuantity, answer)
        && updatingItems == old(updatingItems) - {productId}
      ensures newQuantity > 0 && isAuthenticated ==>
        guest.stored == old(guest.stored) && guestItems == old(guestItems)
        && cache.events == old(cache.events) + (if answer.Success? then WriteBackEvents(answer.value) else [])
        && cache.snapshot == (if answer.Success? then SnapshotAfter(old(cache.snapshot), WriteBackEvents(answer.value))
                              else old(cache.snapshot))
      ensures newQuantity > 0 && !isAuthenticated ==>
        guest.stored == StoredAfterUpdate(old(guest.stored), productSlug, newQuantity)
        && guestItems == ResolveLines(guest.Lines(), catalog) && !loadingGuestCart
        && cache.snapshot == old(cache.snapshot) && cache.events == old(cache.events)
    {
      if newQuantity <= 0 {
        HandleRemoveItem(isAuthenticated, productId, productSlug, answer, catalog);
        return;
      }
      updatingItems := updatingItems + {productId};
      var trace;
      if isAuthenticated {
        trace := ServerUpdate(cache, productId, newQuantity, answer);
      } else {
        guest.UpdateGuestCartItem(productSlug, newQuantity);
        LoadGuestCart(catalog);
        trace := [CartUpdated];
      }
      updatingItems := updatingItems - {productId};
      effects := effects + Marked(productId, trace, false);
    }
  }

  /** A handler's effects between marking the line and, unless it stays marked, unmarking it. */
  function Marked(productId: string, steps: seq<Effect>, staysMarked: bool): seq<Effect> {
    [MarkUpdating(productId)] + steps + (if staysMarked then [] else [UnmarkUpdating(productId)])
  }

  /** Only a signed-in removal that succeeds skips the unmarking. */
  predicate StaysMarked(isAuthenticated: bool, answer: Result<CartResponse, Thrown>) {
    isAuthenticated && answer.Success?
  }

  function RemoveEffects(isAuthenticated: bool, productId: string, answer: Result<CartResponse, Thrown>): seq<Effect> {
    var steps := if isAuthenticated then ServerRemoveSteps(productId, answer) else [CartUpdated];
    Marked(productId, steps, StaysMarked(isAuthenticated, answer))
  }

  function UpdateEffects(isAuthenticated: bool, productId: string, quantity: int,
                         answer: Result<CartResponse, Thrown>): seq<Effect>
  {
    var steps := if isAuthenticated then ServerUpdateSteps(productId, quantity, answer) else [CartUpdated];
    Marked(productId, steps, false)
  }

  /** The server request and its report: the cart-changed tick, or the error. */
  function ServerRemoveSteps(productId: string, answer: Result<CartResponse, Thrown>): seq<Effect> {
    [Send(RemoveCommand(productId))]
    + if answer.Success? then [CartUpdated]
      else [Notify(ErrorToast, ResponseErrorOr(answer.error, "Failed to remove item"))]
  }

  function ServerUpdateSteps(productId: string, quantity: int, answer: Result<CartResponse, Thrown>): seq<Effect> {
    [Send(UpdateCommand(productId, quantity))]
    + if answer.Success? then [CartUpdated]
      else [Notify(ErrorToast, ResponseErrorOr(answer.error, "Failed to update quantity"))]
  }

  /** The server step of a removal. */
  method ServerRemove(cache: QueryCache, productId: string, answer: Result<CartResponse, Thrown>)
    returns (trace: seq<Effect>)
    modifies cache
    ensures trace == ServerRemoveSteps(productId, answer)
    ensures cache.snapshot == old(cache.snapshot)
    ensures cache.events == old(cache.events) + (if answer.Success? then [Invalidate, Refetch] else [])
  {
    var command := cache.RemoveFromCart(productId, answer);
    trace := [Send(command)];
    match answer {
      case Success(_) =>
        trace := trace + [CartUpdated];
      case Failure(e) =>
        trace := trace + [Notify(ErrorToast, ResponseErrorOr(e, "Failed to remove item"))];
    }
  }

  /** The server step of a quantity change. */
  method ServerUpdate(cache: QueryCache, productId: string, quantity: int, answer: Result<CartResponse, Thrown>)
    returns (trace: seq<Effect>)
    modifies cache
    ensures trace == ServerUpdateSteps(productId, quantity, answer)
    ensures cache.events == old(cache.events) + (if answer.Success? then WriteBackEvents(answer.value) else [])
    ensures cache.snapshot == (if answer.Success? then SnapshotAfter(old(cache.snapshot), WriteBackEvents(answer.value))
                               else old(cache.snapshot))
  {
    var command := cache.UpdateCartItem(productId, quantity, answer);
    trace := [Send(command)];
    match answer {
      case Success(_) =>
        trace := trace + [CartUpdated];
      case Failure(e) =>
        trace := trace + [Notify(ErrorToast, ResponseErrorOr(e, "Failed to update quantity"))];
    }
  }

  /** Every handler run marks its line first; it ends by unmarking it except after a signed-in
      removal that succeeded, which leaves it marked. */
  lemma MarkingDiscipline(isAuthenticated: bool, productId: string, quantity: int, answer: Result<CartResponse, Thrown>)
    ensures var r := RemoveEffects(isAuthenticated, productId, answer);
      r[0] == MarkUpdating(productId)
      && (r[|r| - 1] == UnmarkUpdating(productId) <==> !(isAuthenticated && answer.Success?))
    ensures var u := UpdateEffects(isAuthenticated, productId, quantity, answer);
      u[0] == MarkUpdating(productId) && u[|u| - 1] == UnmarkUpdating(productId)
  {
  }
}
