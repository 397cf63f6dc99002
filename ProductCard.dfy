/**
 * The product card (`src/components/product/ProductCard.tsx`): its stock flags and badges,
 * the lookup of the product's cart line, and the add, quantity-change, remove and decrement
 * handlers with the `quantity`, `showCounter` and `isAdding` state they update.
 */
module ProductCard {
  import opened Wrappers
  import opened Domain
  import opened GuestCart
  import opened LocalCart
  import opened CartQueries
  import opened Effects

  /** `status === "UNAVAILABLE"` is treated as out of stock. */
  predicate IsUnavailable(p: Product) {
    p.status == "UNAVAILABLE"
  }

  predicate IsOutOfStock(p: Product) {
    p.stockQuantity == 0 || IsUnavailable(p)
  }

  /** The most a card lets the user ask for. */
  function MaxQuantity(p: Product): int {
    if IsUnavailable(p) then 0 else p.stockQuantity
  }

  /** The red badge, when there is one. */
  function StockBadge(p: Product): (r: Option<string>)
    ensures r.Some? <==> IsOutOfStock(p)
    ensures r.Some? ==> (r.value == "Unavailable" <==> IsUnavailable(p))
    ensures r.Some? && !IsUnavailable(p) ==> r.value == "Out of Stock"
  {
    if !IsOutOfStock(p) then None
    else if IsUnavailable(p) then Some("Unavailable") else Some("Out of Stock")
  }

  /** The amber "Only N left" badge. */
  predicate LowStockBadge(p: Product) {
    !IsOutOfStock(p) && p.stockQuantity < 10
  }

  /** The quantity of the product's cart line: by id in the cached server cart when signed in,
      by `slug || _id` in the guest cart otherwise; the first matching line counts. */
  function CartLine(isAuthenticated: bool, cartData: Option<CartResponse>, guestLines: seq<GuestLine>, p: Product)
    : (r: Option<int>)
  {
    if isAuthenticated then
      match IndexOfId(CachedItems(cartData), p.id)
      case Some(k) => Some(CachedItems(cartData)[k].quantity)
      case None => None
    else
      match IndexOf(guestLines, SlugOrId(p))
      case Some(k) => Some(guestLines[k].quantity)
      case None => None
  }

  /** What a signed-in add sends: an update to the cached line's quantity plus `quantity` when the
      cached cart already holds the product, an add of `quantity` otherwise. */
  function SignedInAddCommand(snapshot: Option<CartResponse>, p: Product, quantity: int): CartCommand {
    match IndexOfId(CachedItems(snapshot), p.id)
    case Some(k) => UpdateCommand(p.id, CachedItems(snapshot)[k].quantity + quantity)
    case None => AddCommand(p.id, AddQuantity(quantity))
  }

  /** The checks `handleAddToCart` makes before adding: out of stock first, then a quantity
      above what may be bought, which the card also clamps. */
  function AddGuard(p: Product, quantity: int): Option<Effect> {
    if IsOutOfStock(p) then Some(Notify(ErrorToast, "Product is out of stock"))
    else if quantity > MaxQuantity(p) then
      Some(Notify(WarningToast, StockLimitMessage(MaxQuantity(p), ". Quantity adjusted.")))
    else None
  }

  /** The checks let an add through exactly when the product is in stock and the quantity is
      within what may be bought, and after a clamp the same add goes through. */
  lemma AddGuardIff(p: Product, quantity: int)
    ensures AddGuard(p, quantity).None? <==> !IsOutOfStock(p) && quantity <= MaxQuantity(p)
    ensures AddGuard(p, quantity).Some? && !IsOutOfStock(p) ==> AddGuard(p, MaxQuantity(p)).None?
  {
  }

  /** What an add that passed the checks shows: signed in, the command sent and a notice when it
      fails; as a guest, the cart-changed tick. */
  function AddTrace(isAuthenticated: bool, snapshot: Option<CartResponse>, p: Product, quantity: int,
                    answer: Result<CartResponse, Thrown>): seq<Effect> {
    if isAuthenticated then
      [Send(SignedInAddCommand(snapshot, p, quantity))] + (if answer.Failure? then AddFailureNotice(answer.error) else [])
    else [CartUpdated]
  }

  // ---------------------------------------------------------------------------------------

  /** A card is out of stock exactly when it lets the user ask for nothing. */
  lemma OutOfStockIffNoAllowance(p: Product)
    ensures IsOutOfStock(p) <==> MaxQuantity(p) == 0
  {
  }

  /** The two badges never show together, and at most nine left shows the amber one. */
  lemma BadgesExclusive(p: Product)
    ensures !(StockBadge(p).Some? && LowStockBadge(p))
    ensures 0 < p.stockQuantity < 10 && !IsUnavailable(p) ==> LowStockBadge(p)
  {
  }

  /** The first line at index `k` with the key is what `IndexOf` finds. */
  lemma IndexOfFirst(lines: seq<GuestLine>, slug: string, k: nat)
    requires k < |lines| && lines[k].productSlug == slug
    requires forall j :: 0 <= j < k ==> lines[j].productSlug != slug
    ensures IndexOf(lines, slug) == Some(k)
  {
  }

  /** After a guest add, the card sees its line holding what it held before plus the amount. */
  lemma GuestAddSeen(cartData: Option<CartResponse>, lines: seq<GuestLine>, p: Product, quantity: int)
    ensures CartLine(false, cartData, AddLine(lines, SlugOrId(p), quantity), p)
         == Some(CartLine(false, cartData, lines, p).GetOr(0) + quantity)
  {
    var slug := SlugOrId(p);
    var r := AddLine(lines, slug, quantity);
    match IndexOf(lines, slug)
    case Some(i) =>
      IndexOfFirst(r, slug, i);
    case None =>
      IndexOfFirst(r, slug, |lines|);
  }

  /** After a guest update to a positive quantity, the card sees exactly that quantity. */
  lemma GuestUpdateSeen(cartData: Option<CartResponse>, lines: seq<GuestLine>, p: Product, q: int)
    requires IndexOf(lines, SlugOrId(p)).Some? && q > 0
    ensures CartLine(false, cartData, UpdateLine(lines, SlugOrId(p), q), p) == Some(q)
  {
    var i := IndexOf(lines, SlugOrId(p)).value;
    IndexOfFirst(UpdateLine(lines, SlugOrId(p), q), SlugOrId(p), i);
  }

  /** After a guest removal, the card finds no line. */
  lemma GuestRemoveSeen(cartData: Option<CartResponse>, lines: seq<GuestLine>, p: Product)
    ensures CartLine(false, cartData, RemoveSlug(lines, SlugOrId(p)), p).None?
  {
    RemoveQuantities(lines, SlugOrId(p), SlugOrId(p));
  }

  // ---------------------------------------------------------------------------------------

  class CardView {
    var quantity: int
    var showCounter: bool
    var isAdding: bool
    var effects: seq<Effect>
    const product: Product
    const guest: GuestCartStore
    const cache: QueryCache

    constructor (product: Product, guest: GuestCartStore, cache: QueryCache)
      ensures quantity == 1 && !showCounter && !isAdding && effects == []
      ensures this.product == product && this.guest == guest && this.cache == cache
    {
      quantity := 1;
      showCounter := false;
      isAdding := false;
      effects := [];
      this.product := product;
      this.guest := guest;
      this.cache := cache;
    }

    /** The `cartItem` memo, as the quantity of the product's line. */
    function InCart(isAuthenticated: bool): Option<int>
      reads this, guest, cache
    {
      CartLine(isAuthenticated, cache.snapshot, guest.Lines(), product)
    }

    /** The effect on `cartItem`: show its quantity and the counter, or 1 and the button. */
    method SyncFromCart(isAuthenticated: bool)
      modifies this
      ensures InCart(isAuthenticated).Some? ==> quantity == InCart(isAuthenticated).value && showCounter
      ensures InCart(isAuthenticated).None? ==> quantity == 1 && !showCounter
      ensures isAdding == old(isAdding) && effects == old(effects)
    {
      match InCart(isAuthenticated) {
        case Some(q) =>
          quantity := q;
          showCounter := true;
        case None =>
          quantity := 1;
          showCounter := false;
      }
    }

    /** `handleQuantityChange`: below 1 nothing happens; above the allowance only a warning;
        otherwise the counter moves, and a line already in the cart is updated with it, the
        counter going back to the line's quantity when the server refuses. */
    method HandleQuantityChange(isAuthenticated: bool, newQuantity: int, answer: Result<CartResponse, Thrown>)
      modifies this, guest, cache
      ensures showCounter == old(showCounter) && isAdding == old(isAdding)
      ensures newQuantity < 1 || newQuantity > MaxQuantity(product) || old(InCart(isAuthenticated)).None? ==>
        guest.stored == old(guest.stored) && cache.snapshot == old(cache.snapshot) && cache.events == old(cache.events)
      ensures newQuantity < 1 ==> quantity == old(quantity) && effects == old(effects)
      ensures 1 <= newQuantity && newQuantity > MaxQuantity(product) ==>
        quantity == old(quantity) && effects == old(effects) + [Notify(WarningToast, StockLimitMessage(MaxQuantity(product), ""))]
      ensures 1 <= newQuantity <= MaxQuantity(product) && old(InCart(isAuthenticated)).None? ==>
        quantity == newQuantity && effects == old(effects)
      ensures 1 <= newQuantity <= MaxQuantity(product) && old(InCart(isAuthenticated)).Some? && isAuthenticated ==>
        guest.stored == old(guest.stored)
        && (answer.Success? ==>
              quantity == newQuantity
              && effects == old(effects) + [Send(UpdateCommand(product.id, newQuantity))]
              && cache.events == old(cache.events) + WriteBackEvents(answer.value)
              && cache.snapshot == SnapshotAfter(old(cache.snapshot), WriteBackEvents(answer.value)))
        && (answer.Failure? ==>
              quantity == old(InCart(isAuthenticated)).value
              && effects == old(effects) + [Send(UpdateCommand(product.id, newQuantity)),
                   Notify(ErrorToast, ResponseErrorOr(answer.error, "Failed to update cart"))]
              && cache.events == old(cache.events) && cache.snapshot == old(cache.snapshot))
      ensures 1 <= newQuantity <= MaxQuantity(product) && old(InCart(isAuthenticated)).Some? && !isAuthenticated ==>
        quantity == newQuantity
        && guest.stored == StoredAfterUpdate(old(guest.stored), SlugOrId(product), newQuantity)
        && effects == old(effects) + [CartUpdated]
        && cache.snapshot == old(cache.snapshot) && cache.events == old(cache.events)
    {
      if newQuantity < 1 {
        return;
      }
      var maxQuantity := MaxQuantity(product);
      if newQuantity > maxQuantity {
        effects := effects + [Notify(WarningToast, StockLimitMessage(maxQuantity, ""))];
        return;
      }
      var cartItem := InCart(isAuthenticated);
      quantity := newQuantity;
      if cartItem.Some? {
        if isAuthenticated {
          var command := cache.UpdateCartItem(product.id, newQuantity, answer);
          effects := effects + [Send(command)];
          if answer.Failure? {
            effects := effects + [Notify(ErrorToast, ResponseErrorOr(answer.error, "Failed to update cart"))];
            quantity := cartItem.value;
          }
        } else {
          guest.UpdateGuestCartItem(SlugOrId(product), newQuantity);
          effects := effects + [CartUpdated];
        }
      }
    }

    /** `handleAddToCart`: a refused add only warns (and clamps the quantity); otherwise the add
        runs and the counter shows once it has gone through. */
    method HandleAddToCart(isAuthenticated: bool, answer: Result<CartResponse, Thrown>)
      modifies this, guest, cache
      ensures AddGuard(product, old(quantity)).Some? ==>
        effects == old(effects) + [AddGuard(product, old(quantity)).value]
        && quantity == (if IsOutOfStock(product) then old(quantity) else MaxQuantity(product))
        && guest.stored == old(guest.stored) && cache.snapshot == old(cache.snapshot) && cache.events == old(cache.events)
        && showCounter == old(showCounter) && isAdding == old(isAdding)
      ensures AddGuard(product, old(quantity)).None? ==>
        quantity == old(quantity) && !isAdding
        && effects == old(effects) + AddTrace(isAuthenticated, old(cache.snapshot), product, old(quantity), answer)
        && showCounter == (!isAuthenticated || answer.Success? || old(showCounter))
      ensures AddGuard(product, old(quantity)).None? && isAuthenticated ==>
        guest.stored == old(guest.stored)
        && cache.events == old(cache.events) + (if answer.Success? then WriteBackEvents(answer.value) else [])
        && cache.snapshot == (if answer.Success? then SnapshotAfter(old(cache.snapshot), WriteBackEvents(answer.value))
                              else old(cache.snapshot))
      ensures AddGuard(product, old(quantity)).None? && !isAuthenticated ==>
        guest.stored == Some(AddLine(old(guest.Lines()), SlugOrId(product), old(quantity)))
        && cache.snapshot == old(cache.snapshot) && cache.events == old(cache.events)
    {
      var notice := AddGuard(product, quantity);
      if notice.Some? {
        effects := effects + [notice.value];
        if !IsOutOfStock(product) {
          quantity := MaxQuantity(product);
        }
        return;
      }
      RunAdd(isAuthenticated, answer);
    }

    /** The add itself, with `isAdding` set around it; the counter shows once it has gone through. */
    method RunAdd(isAuthenticated: bool, answer: Result<CartResponse, Thrown>)
      modifies this, guest, cache
      ensures quantity == old(quantity) && !isAdding
      ensures effects == old(effects) + AddTrace(isAuthenticated, old(cache.snapshot), product, old(quantity), answer)
      ensures showCounter == (!isAuthenticated || answer.Success? || old(showCounter))
      ensures isAuthenticated ==>
        guest.stored == old(guest.stored)
        && cache.events == old(cache.events) + (if answer.Success? then WriteBackEvents(answer.value) else [])
        && cache.snapshot == (if answer.Success? then SnapshotAfter(old(cache.snapshot), WriteBackEvents(answer.value))
                              else old(cache.snapshot))
      ensures !isAuthenticated ==>
        guest.stored == Some(AddLine(old(guest.Lines()), SlugOrId(product), old(quantity)))
        && cache.snapshot == old(cache.snapshot) && cache.events == old(cache.events)
    {
      isAdding := true;
      AddAndShow(isAuthenticated, answer);
      isAdding := false;
    }

    /** The `try` block and the counter it reveals, leaving `isAdding` to the caller. */
    method AddAndShow(isAuthenticated: bool, answer: Result<CartResponse, Thrown>)
      modifies this, guest, cache
      ensures quantity == old(quantity) && isAdding == old(isAdding)
      ensures effects == old(effects) + AddTrace(isAuthenticated, old(cache.snapshot), product, old(quantity), answer)
      ensures showCounter == (!isAuthenticated || answer.Success? || old(showCounter))
      ensures isAuthenticated ==>
        guest.stored == old(guest.stored)
        && cache.events == old(cache.events) + (if answer.Success? then WriteBackEvents(answer.value) else [])
        && cache.snapshot == (if answer.Success? then SnapshotAfter(old(cache.snapshot), WriteBackEvents(answer.value))
                              else old(cache.snapshot))
      ensures !isAuthenticated ==>
        guest.stored == Some(AddLine(old(guest.Lines()), SlugOrId(product), old(quantity)))
        && cache.snapshot == old(cache.snapshot) && cache.events == old(cache.events)
    {
      var trace, added := AddFromCard(guest, cache, isAuthenticated, product, quantity, answer);
      if added {
        showCounter := true;
      }
      effects := effects + trace;
    }

    /** `handleRemoveFromCart`: on success the card goes back to the add button with 1. */
    method HandleRemoveFromCart(isAuthenticated: bool, answer: Result<CartResponse, Thrown>)
      modifies this, guest, cache
      ensures isAdding == old(isAdding) && cache.snapshot == old(cache.snapshot)
      ensures isAuthenticated ==> guest.stored == old(guest.stored)
      ensures isAuthenticated && answer.Success? ==>
        !showCounter && quantity == 1 && effects == old(effects) + [Send(RemoveCommand(product.id))]
        && cache.events == old(cache.events) + [Invalidate, Refetch]
      ensures isAuthenticated && answer.Failure? ==>
        showCounter == old(showCounter) && quantity == old(quantity) && cache.events == old(cache.events)
        && effects == old(effects) + [Send(RemoveCommand(product.id)),
             Notify(ErrorToast, ResponseErrorOr(answer.error, "Failed to remove from cart"))]
      ensures !isAuthenticated ==>
        guest.stored == Some(RemoveSlug(old(guest.Lines()), SlugOrId(product)))
        && !showCounter && quantity == 1 && effects == old(effects) + [CartUpdated]
        && cache.events == old(cache.events)
    {
      if isAuthenticated {
        var command := cache.RemoveFromCart(product.id, answer);
        effects := effects + [Send(command)];
        if answer.Failure? {
          effects := effects + [Notify(ErrorToast, ResponseErrorOr(answer.error, "Failed to remove from cart"))];
          return;
        }
      } else {
        guest.RemoveFromGuestCart(SlugOrId(product));
        effects := effects + [CartUpdated];
      }
      showCounter := false;
      quantity := 1;
    }

    /** The "-" button: at 1 or less it removes the line, otherwise it asks for one less. */
    method Decrement(isAuthenticated: bool, answer: Result<CartResponse, Thrown>)
      modifies this, guest, cache
      ensures isAdding == old(isAdding)
      // At 1 or less: `handleRemoveFromCart`.
      ensures old(quantity) <= 1 ==> cache.snapshot == old(cache.snapshot)
      ensures old(quantity) <= 1 && isAuthenticated && answer.Success? ==>
        guest.stored == old(guest.stored) && !showCounter && quantity == 1
        && effects == old(effects) + [Send(RemoveCommand(product.id))]
        && cache.events == old(cache.events) + [Invalidate, Refetch]
      ensures old(quantity) <= 1 && isAuthenticated && answer.Failure? ==>
        guest.stored == old(guest.stored) && showCounter == old(showCounter) && quantity == old(quantity)
        && cache.events == old(cache.events)
        && effects == old(effects) + [Send(RemoveCommand(product.id)),
             Notify(ErrorToast, ResponseErrorOr(answer.error, "Failed to remove from cart"))]
      ensures old(quantity) <= 1 && !isAuthenticated ==>
        guest.stored == Some(RemoveSlug(old(guest.Lines()), SlugOrId(product)))
        && !showCounter && quantity == 1 && effects == old(effects) + [CartUpdated]
        && cache.events == old(cache.events)
      // Above 1: `handleQuantityChange` with one less.
      ensures old(quantity) > 1 ==> showCounter == old(showCounter)
      ensures old(quantity) > 1 && (old(quantity) - 1 > MaxQuantity(product) || old(InCart(isAuthenticated)).None?) ==>
        guest.stored == old(guest.stored) && cache.snapshot == old(cache.snapshot) && cache.events == old(cache.events)
      ensures old(quantity) > 1 && old(quantity) - 1 > MaxQuantity(product) ==>
        quantity == old(quantity)
        && effects == old(effects) + [Notify(WarningToast, StockLimitMessage(MaxQuantity(product), ""))]
      ensures old(quantity) > 1 && old(quantity) - 1 <= MaxQuantity(product) && old(InCart(isAuthenticated)).None? ==>
        quantity == old(quantity) - 1 && effects == old(effects)
      ensures old(quantity) > 1 && old(quantity) - 1 <= MaxQuantity(product) && old(InCart(isAuthenticated)).Some?
              && isAuthenticated ==>
        guest.stored == old(guest.stored)
        && (answer.Success? ==>
              quantity == old(quantity) - 1
              && effects == old(effects) + [Send(UpdateCommand(product.id, old(quantity) - 1))]
              && cache.events == old(cache.events) + WriteBackEvents(answer.value)
              && cache.snapshot == SnapshotAfter(old(cache.snapshot), WriteBackEvents(answer.value)))
        && (answer.Failure? ==>
              quantity == old(InCart(isAuthenticated)).value
              && effects == old(effects) + [Send(UpdateCommand(product.id, old(quantity) - 1)),
                   Notify(ErrorToast, ResponseErrorOr(answer.error, "Failed to update cart"))]
              && cache.events == old(cache.events) && cache.snapshot == old(cache.snapshot))
      ensures old(quantity) > 1 && old(quantity) - 1 <= MaxQuantity(product) && old(InCart(isAuthenticated)).Some?
              && !isAuthenticated ==>
        quantity == old(quantity) - 1
        && guest.stored == StoredAfterUpdate(old(guest.stored), SlugOrId(product), old(quantity) - 1)
        && effects == old(effects) + [CartUpdated]
        && cache.snapshot == old(cache.snapshot) && cache.events == old(cache.events)
    {
      if quantity <= 1 {
        HandleRemoveFromCart(isAuthenticated, answer);
      } else {
        HandleQuantityChange(isAuthenticated, quantity - 1, answer);
      }
    }
  }

  /** The `try` block of `handleAddToCart`; `added` says whether it ran to the end. */
  method AddFromCard(guest: GuestCartStore, cache: QueryCache, isAuthenticated: bool, p: Product, quantity: int,
                     answer: Result<CartResponse, Thrown>)
    returns (trace: seq<Effect>, added: bool)
    modifies guest, cache
    ensures added == (!isAuthenticated || answer.Success?)
    ensures trace == AddTrace(isAuthenticated, old(cache.snapshot), p, quantity, answer)
    ensures isAuthenticated ==>
      guest.stored == old(guest.stored)
      && cache.events == old(cache.events) + (if answer.Success? then WriteBackEvents(answer.value) else [])
      && cache.snapshot == (if answer.Success? then SnapshotAfter(old(cache.snapshot), WriteBackEvents(answer.value))
                            else old(cache.snapshot))
    ensures !isAuthenticated ==>
      guest.stored == Some(AddLine(old(guest.Lines()), SlugOrId(p), quantity))
      && cache.snapshot == old(cache.snapshot) && cache.events == old(cache.events)
  {
    if isAuthenticated {
      trace := AddSignedIn(cache, p, quantity, answer);
      added := answer.Success?;
    } else {
      guest.AddToGuestCart(SlugOrId(p), quantity);
      trace := [CartUpdated];
      added := true;
    }
  }

  /** The signed-in part of `handleAddToCart`: read the cached cart, send the update or the add,
      and classify a failure. */
  method AddSignedIn(cache: QueryCache, p: Product, quantity: int, answer: Result<CartResponse, Thrown>)
    returns (trace: seq<Effect>)
    modifies cache
    ensures trace == [Send(SignedInAddCommand(old(cache.snapshot), p, quantity))]
      + (if answer.Failure? then AddFailureNotice(answer.error) else [])
    ensures cache.events == old(cache.events) + (if answer.Success? then WriteBackEvents(answer.value) else [])
    ensures cache.snapshot == (if answer.Success? then SnapshotAfter(old(cache.snapshot), WriteBackEvents(answer.value))
                               else old(cache.snapshot))
  {
    var update, newQuantity := PlanAdd(cache.snapshot, p, quantity);
    var command := SendAdd(cache, p.id, update, newQuantity, quantity, answer);
    trace := [Send(command)] + (if answer.Failure? then AddFailureNotice(answer.error) else []);
  }

  /** The mutation the plan picked: an update to `newQuantity`, or an add of `quantity`. */
  method SendAdd(cache: QueryCache, productId: string, update: bool, newQuantity: int, quantity: int,
                 answer: Result<CartResponse, Thrown>)
    returns (command: CartCommand)
    modifies cache
    ensures command == if update then UpdateCommand(productId, newQuantity) else AddCommand(productId, AddQuantity(quantity))
    ensures cache.events == old(cache.events) + (if answer.Success? then WriteBackEvents(answer.value) else [])
    ensures cache.snapshot == (if answer.Success? then SnapshotAfter(old(cache.snapshot), WriteBackEvents(answer.value))
                               else old(cache.snapshot))
  {
    if update {
      command := cache.UpdateCartItem(productId, newQuantity, answer);
    } else {
      command := cache.AddToCart(productId, quantity, answer);
    }
  }

  /** The read of the cached cart that decides between an update to `newQuantity` and an add. */
  method PlanAdd(snapshot: Option<CartResponse>, p: Product, quantity: int) returns (update: bool, newQuantity: int)
    ensures update ==> SignedInAddCommand(snapshot, p, quantity) == UpdateCommand(p.id, newQuantity)
    ensures !update ==> SignedInAddCommand(snapshot, p, quantity) == AddCommand(p.id, AddQuantity(quantity))
  {
    var items := CachedItems(snapshot);
    var existing := FindCartItem(items, p.id);
    update := existing.Some?;
    newQuantity := if existing.Some? then items[existing.value].quantity + quantity else quantity;
  }

  /** `items.find((item) => item.product._id === productId)`, as an index. */
  method FindCartItem(items: seq<CartItem>, productId: string) returns (found: Option<nat>)
    ensures found == IndexOfId(items, productId)
  {
    var i := 0;
    while i < |items|
      invariant 0 <= i <= |items|
      invariant forall j :: 0 <= j < i ==> items[j].product.id != productId
    {
      if items[i].product.id == productId {
        IndexOfIdFirst(items, productId, i);
        return Some(i);
      }
      i := i + 1;
    }
    return None;
  }

  lemma IndexOfIdFirst(items: seq<CartItem>, productId: string, k: nat)
    requires k < |items| && items[k].product.id == productId
    requires forall j :: 0 <= j < k ==> items[j].product.id != productId
    ensures IndexOfId(items, productId) == Some(k)
  {
  }
}
