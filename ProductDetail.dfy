/**
 * The product page (`src/pages/ProductDetail.tsx`): its quantity selector, which clamps what is
 * asked for into the product's stock, and its add-to-cart handler.
 */
module ProductDetail {
  import opened Wrappers
  import opened Domain
  import opened GuestCart
  import opened CartQueries
  import opened Effects

  /** `handleQuantityChange`: above the stock the quantity becomes the stock, below 1 it becomes 1,
      otherwise it is taken as asked; with no product loaded nothing changes. */
  function ClampQuantity(product: Option<Product>, current: int, requested: int): int {
    match product
    case None => current
    case Some(p) =>
      if requested > p.stockQuantity then p.stockQuantity
      else if requested < 1 then 1
      else requested
  }

  /** The warning that goes with a request above the stock. */
  function ClampNotice(product: Option<Product>, requested: int): seq<Effect> {
    if product.Some? && requested > product.value.stockQuantity then
      [Notify(WarningToast, StockLimitMessage(product.value.stockQuantity, ""))]
    else []
  }

  predicate DecrementDisabled(quantity: int) {
    quantity <= 1
  }

  predicate IncrementDisabled(quantity: int, p: Product) {
    quantity >= p.stockQuantity
  }

  predicate AddDisabled(p: Product) {
    p.stockQuantity == 0
  }

  // ---------------------------------------------------------------------------------------

  /** With at least one in stock, the selector always lands in 1..stock, keeps a request that is
      already there, and clamping twice is clamping once. */
  lemma ClampWithinStock(p: Product, current: int, requested: int)
    requires p.stockQuantity >= 1
    ensures 1 <= ClampQuantity(Some(p), current, requested) <= p.stockQuantity
    ensures 1 <= requested <= p.stockQuantity ==> ClampQuantity(Some(p), current, requested) == requested
    ensures var once := ClampQuantity(Some(p), current, requested);
      ClampQuantity(Some(p), once, once) == once
  {
  }

  /** With nothing in stock the clamp does not settle: 5 becomes 0, and 0 becomes 1. */
  lemma ClampUnsettledAtZero(p: Product)
    requires p.stockQuantity == 0
    ensures ClampQuantity(Some(p), 1, 5) == 0
    ensures ClampQuantity(Some(p), 0, 0) == 1
  {
  }

  /** While the quantity is in 1..stock, the enabled "+" and "-" buttons move it by exactly one,
      with no warning. */
  lemma ButtonsStepByOne(p: Product, quantity: int)
    requires 1 <= quantity <= p.stockQuantity
    ensures !IncrementDisabled(quantity, p) ==>
      ClampQuantity(Some(p), quantity, quantity + 1) == quantity + 1 && ClampNotice(Some(p), quantity + 1) == []
    ensures !DecrementDisabled(quantity) ==>
      ClampQuantity(Some(p), quantity, quantity - 1) == quantity - 1 && ClampNotice(Some(p), quantity - 1) == []
  {
  }

  // ---------------------------------------------------------------------------------------

  class DetailView {
    var quantity: int
    var effects: seq<Effect>
    const guest: GuestCartStore
    const cache: QueryCache

    constructor (guest: GuestCartStore, cache: QueryCache)
      ensures quantity == 1 && effects == [] && this.guest == guest && this.cache == cache
    {
      quantity := 1;
      effects := [];
      this.guest := guest;
      this.cache := cache;
    }

    method HandleQuantityChange(product: Option<Product>, requested: int)
      modifies this
      ensures quantity == ClampQuantity(product, old(quantity), requested)
      ensures effects == old(effects) + ClampNotice(product, requested)
    {
      if product.None? {
        return;
      }
      var p := product.value;
      if requested > p.stockQuantity {
        effects := effects + [Notify(WarningToast, StockLimitMessage(p.stockQuantity, ""))];
        quantity := p.stockQuantity;
      } else if requested < 1 {
        quantity := 1;
      } else {
        quantity := requested;
      }
    }

    /** `handleAddToCart`: nothing is sent for a missing or sold-out product or for a quantity
        above the stock (which is cut down to the stock); otherwise the quantity is added to the
        server cart or the guest cart. */
    method HandleAddToCart(isAuthenticated: bool, product: Option<Product>, answer: Result<CartResponse, Thrown>)
      modifies this, guest, cache
      ensures AddGuard(product, old(quantity)).Some? ==>
        effects == old(effects) + [AddGuard(product, old(quantity)).value]
        && quantity == (if product.None? || product.value.stockQuantity == 0 then old(quantity) else product.value.stockQuantity)
        && guest.stored == old(guest.stored) && cache.snapshot == old(cache.snapshot) && cache.events == old(cache.events)
      ensures AddGuard(product, old(quantity)).None? ==>
        quantity == old(quantity)
        && effects == old(effects) + AddTrace(isAuthenticated, product.value, old(quantity), answer)
      ensures AddGuard(product, old(quantity)).None? && isAuthenticated ==>
        guest.stored == old(guest.stored)
        && cache.events == old(cache.events) + (if answer.Success? then WriteBackEvents(answer.value) else [])
        && cache.snapshot == (if answer.Success? then SnapshotAfter(old(cache.snapshot), WriteBackEvents(answer.value))
                              else old(cache.snapshot))
      ensures AddGuard(product, old(quantity)).None? && !isAuthenticated ==>
        guest.stored == Some(AddLine(old(guest.Lines()), SlugOrId(product.value), old(quantity)))
        && cache.snapshot == old(cache.snapshot) && cache.events == old(cache.events)
    {
      var notice := AddGuard(product, quantity);
      if notice.Some? {
        effects := effects + [notice.value];
        if product.Some? && product.value.stockQuantity != 0 {
          quantity := product.value.stockQuantity;
        }
        return;
      }
      var trace := AddProduct(guest, cache, isAuthenticated, product.value, quantity, answer);
      effects := effects + trace;
    }
  }

  /** The checks `handleAddToCart` makes before adding: a product that is there and in stock,
      then a quantity within the stock, which the page cuts down to the stock otherwise. */
  function AddGuard(product: Option<Product>, quantity: int): Option<Effect> {
    if product.None? || product.value.stockQuantity == 0 then Some(Notify(ErrorToast, "Product is out of stock"))
    else if quantity > product.value.stockQuantity then
      Some(Notify(WarningToast, StockLimitMessage(product.value.stockQuantity, ". Please adjust the quantity.")))
    else None
  }

  /** The checks let an add through exactly when the product is loaded, in stock and the quantity
      is within the stock; after the cut the same add goes through. */
  lemma AddGuardIff(product: Option<Product>, quantity: int)
    ensures AddGuard(product, quantity).None? <==>
      product.Some? && 0 != product.value.stockQuantity && quantity <= product.value.stockQuantity
    ensures AddGuard(product, quantity).Some? && product.Some? && product.value.stockQuantity != 0 ==>
      AddGuard(product, product.value.stockQuantity).None?
  {
  }

  /** What an add that passed the checks shows: signed in, the add sent and a notice when it
      fails; as a guest, the cart-changed tick. */
  function AddTrace(isAuthenticated: bool, p: Product, quantity: int, answer: Result<CartResponse, Thrown>)
    : seq<Effect>
  {
    if isAuthenticated then
      [Send(AddCommand(p.id, AddQuantity(quantity)))] + (if answer.Failure? then AddFailureNotice(answer.error) else [])
    else [CartUpdated]
  }

  /** An accepted add: the server request and, when it fails, its classified notice; or the
      guest-cart add and the cart-changed tick. */
  method AddProduct(guest: GuestCartStore, cache: QueryCache, isAuthenticated: bool, p: Product, quantity: int,
                    answer: Result<CartResponse, Thrown>)
    returns (trace: seq<Effect>)
    modifies guest, cache
    ensures trace == AddTrace(isAuthenticated, p, quantity, answer)
    ensures isAuthenticated ==>
      guest.stored == old(guest.stored)
      && cache.events == old(cache.events) + (if answer.Success? then WriteBackEvents(answer.value) else [])
      && cache.snapshot == (if answer.Success? then SnapshotAfter(old(cache.snapshot), WriteBackEvents(answer.value))
                            else old(cache.snapshot))
    ensures !isAuthenticated ==>
      guest.stored == Some(AddLine(old(guest.Lines()), SlugOrId(p), quantity))
      && cache.snapshot == old(cache.snapshot) && cache.events == old(cache.events)
  {
    if isAuthenticated {
      trace := AddToServer(cache, p, quantity, answer);
    } else {
      guest.AddToGuestCart(SlugOrId(p), quantity);
      trace := [CartUpdated];
    }
  }

  /** The signed-in add: `addToCart.mutateAsync` and, when it throws, the classified notice. */
  method AddToServer(cache: QueryCache, p: Product, quantity: int, answer: Result<CartResponse, Thrown>)
    returns (trace: seq<Effect>)
    modifies cache
    ensures trace == AddTrace(true, p, quantity, answer)
    ensures cache.events == old(cache.events) + (if answer.Success? then WriteBackEvents(answer.value) else [])
    ensures cache.snapshot == (if answer.Success? then SnapshotAfter(old(cache.snapshot), WriteBackEvents(answer.value))
                               else old(cache.snapshot))
  {
    var command := cache.AddToCart(p.id, quantity, answer);
    if answer.Success? {
      trace := [Send(command)];
    } else {
      trace := [Send(command)] + AddFailureNotice(answer.error);
    }
  }
}
