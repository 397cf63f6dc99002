/**
 * The header badge count (`src/hooks/useCartCount.ts`): the server cart's quantities for a
 * signed-in user, the guest cart's quantities otherwise.
 */
module CartCount {
  import opened Wrappers
  import opened Domain
  import opened GuestCart
  import Totals
  import LocalCart

  /** The signed-in count: 0 unless signed in with a cached cart, else the sum of its quantities. */
  function AuthenticatedCount(isAuthenticated: bool, cartData: Option<CartResponse>): (n: int)
    ensures !isAuthenticated || cartData.None? || cartData.value.cart.None? ==> n == 0
  {
    if !isAuthenticated || cartData.None? || cartData.value.cart.None? then 0
    else Totals.ItemCount(cartData.value.cart.value.items)
  }

  /** The guest count query: 0 when signed in, else the sum of the guest quantities. */
  function GuestCountQuery(isAuthenticated: bool, guestLines: seq<GuestLine>): (n: int)
    ensures isAuthenticated ==> n == 0
  {
    if isAuthenticated then 0 else GuestCount(guestLines)
  }

  /** The guest count query is enabled only for guests. */
  predicate GuestCountEnabled(isAuthenticated: bool) {
    !isAuthenticated
  }

  /** `isAuthenticated ? authenticatedCount : guestCartCount || 0`; `guestData` is the guest
      query's last result, `None` before it has run. */
  function BadgeCount(isAuthenticated: bool, cartData: Option<CartResponse>, guestData: Option<int>): int {
    if isAuthenticated then AuthenticatedCount(true, cartData) else guestData.GetOr(0)
  }

  /** Once the guest query has run on the stored guest cart, a guest's badge is the guest count,
      and it never reads the server cart. */
  lemma GuestBadge(cartData: Option<CartResponse>, guestLines: seq<GuestLine>)
    ensures BadgeCount(false, cartData, Some(GuestCountQuery(false, guestLines))) == GuestCount(guestLines)
    ensures BadgeCount(false, cartData, Some(GuestCountQuery(false, guestLines)))
         == BadgeCount(false, None, Some(GuestCountQuery(false, guestLines)))
  {
  }

  /** A signed-in user's badge is the server cart's item count, whatever the guest query held. */
  lemma SignedInBadge(cart: ServerCart, success: bool, guestData: Option<int>)
    ensures BadgeCount(true, Some(CartResponse(success, Some(cart))), guestData) == Totals.ItemCount(cart.items)
  {
  }

  /** The badge of a guest is never negative while every stored quantity is at least 1. */
  lemma GuestBadgeNonNegative(guestLines: seq<GuestLine>, cartData: Option<CartResponse>)
    requires Positive(guestLines)
    ensures BadgeCount(false, cartData, Some(GuestCountQuery(false, guestLines))) >= 0
  {
    Totals.SumNonNegative(guestLines, GuestQuantity);
  }

  /** For a guest, the badge agrees with the cart store's `getItemCount()` while the store's
      list is in step with the stored guest cart. */
  lemma BadgeMatchesStore(items: seq<CartItem>, guestLines: seq<GuestLine>, cartData: Option<CartResponse>)
    requires LocalCart.InSync(items, guestLines)
    ensures BadgeCount(false, cartData, Some(GuestCountQuery(false, guestLines))) == Totals.ItemCount(items)
  {
    LocalCart.ItemCountIsGuestCount(items);
  }

  /** A guest add of `quantity` raises the badge by exactly `quantity` once the query reruns. */
  lemma GuestAddRaisesBadge(guestLines: seq<GuestLine>, slug: string, quantity: int, cartData: Option<CartResponse>)
    ensures BadgeCount(false, cartData, Some(GuestCountQuery(false, AddLine(guestLines, slug, quantity))))
         == BadgeCount(false, cartData, Some(GuestCountQuery(false, guestLines))) + quantity
  {
    AddLineQuantities(guestLines, slug, quantity, slug);
  }
}
