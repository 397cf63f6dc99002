/**
 * The guest cart (`src/services/cart.ts`): an ordered list of `(productSlug, quantity)` lines kept
 * in device storage under one key, with upsert, update, remove and clear, and the reconciliation
 * that posts it to the server cart after login.
 */
module GuestCart {
  import opened Wrappers
  import opened Text
  import opened Domain
  import Totals

  /** One stored line, `{ productSlug, quantity }`. */
  datatype GuestLine = GuestLine(productSlug: string, quantity: int)

  /** One line of the batch posted to `/cart/sync`, `{ productId, quantity }`. */
  datatype SyncItem = SyncItem(productId: string, quantity: int)

  /** The quantity `addToGuestCart` uses when the caller gives none. */
  const DefaultQuantity := 1

  // ---------------------------------------------------------------------------------------
  // The list operations, as functions of the stored list
  // ---------------------------------------------------------------------------------------

  /** At most one line per slug. */
  predicate Unique(lines: seq<GuestLine>) {
    forall i, j :: 0 <= i < j < |lines| ==> lines[i].productSlug != lines[j].productSlug
  }

  /** Every stored quantity is at least 1. */
  predicate Positive(lines: seq<GuestLine>) {
    forall i :: 0 <= i < |lines| ==> lines[i].quantity >= 1
  }

  /** `cart.find(item => item.productSlug === slug)`, as the index of the first match. */
  function IndexOf(lines: seq<GuestLine>, slug: string): (r: Option<nat>)
    ensures r.Some? ==> r.value < |lines| && lines[r.value].productSlug == slug
    ensures r.Some? ==> forall j :: 0 <= j < r.value ==> lines[j].productSlug != slug
    ensures r.None? <==> forall j :: 0 <= j < |lines| ==> lines[j].productSlug != slug
  {
    if |lines| == 0 then None
    else if lines[0].productSlug == slug then Some(0)
    else match IndexOf(lines[1..], slug)
      case Some(i) => Some(i + 1)
      case None => None
  }

  /** The contribution of one line to the quantity held for `slug`. */
  function SlugQuantity(slug: string): GuestLine -> int {
    (line: GuestLine) => if line.productSlug == slug then line.quantity else 0
  }

  function GuestQuantity(line: GuestLine): int {
    line.quantity
  }

  /** The quantity the list holds for `slug`, summed over every line with that slug. */
  function QuantityOf(lines: seq<GuestLine>, slug: string): int {
    Totals.Sum(lines, SlugQuantity(slug))
  }

  /** The guest badge count: the sum of all quantities. */
  function GuestCount(lines: seq<GuestLine>): int {
    Totals.Sum(lines, GuestQuantity)
  }

  /** `addToGuestCart`: add to the first line for the slug, or append a new line. */
  function AddLine(lines: seq<GuestLine>, slug: string, quantity: int): (r: seq<GuestLine>)
    ensures IndexOf(lines, slug).Some? ==> |r| == |lines|
    ensures IndexOf(lines, slug).None? ==> r == lines + [GuestLine(slug, quantity)]
    ensures forall j :: 0 <= j < |lines| && lines[j].productSlug != slug ==> r[j] == lines[j]
  {
    match IndexOf(lines, slug)
    case Some(i) => lines[i := lines[i].(quantity := lines[i].quantity + quantity)]
    case None => lines + [GuestLine(slug, quantity)]
  }

  /** `cart.filter(item => item.productSlug !== slug)`. */
  function RemoveSlug(lines: seq<GuestLine>, slug: string): (r: seq<GuestLine>)
    ensures |r| <= |lines|
    ensures forall x :: x in r ==> x in lines && x.productSlug != slug
  {
    if |lines| == 0 then []
    else
      var last := lines[|lines| - 1];
      RemoveSlug(lines[..|lines| - 1], slug) + (if last.productSlug == slug then [] else [last])
  }

  /** `updateGuestCartItem`: nothing when the slug is absent, removal for a quantity of 0 or
      less, otherwise an overwrite of the first line's quantity. */
  function UpdateLine(lines: seq<GuestLine>, slug: string, quantity: int): seq<GuestLine> {
    match IndexOf(lines, slug)
    case None => lines
    case Some(i) =>
      if quantity <= 0 then RemoveSlug(lines, slug)
      else lines[i := lines[i].(quantity := quantity)]
  }

  /** The stored value after `updateGuestCartItem`: untouched when the slug is absent. */
  function StoredAfterUpdate(stored: Option<seq<GuestLine>>, slug: string, quantity: int)
    : (r: Option<seq<GuestLine>>)
    ensures IndexOf(stored.GetOr([]), slug).None? ==> r == stored
    ensures IndexOf(stored.GetOr([]), slug).Some? ==> r == Some(UpdateLine(stored.GetOr([]), slug, quantity))
  {
    if IndexOf(stored.GetOr([]), slug).None? then stored
    else Some(UpdateLine(stored.GetOr([]), slug, quantity))
  }

  // ---------------------------------------------------------------------------------------
  // What the operations do to the quantity held per slug, and the invariants they keep
  // ---------------------------------------------------------------------------------------

  lemma {:induction false} QuantityOfAppend(lines: seq<GuestLine>, line: GuestLine, slug: string)
    ensures QuantityOf(lines + [line], slug)
         == QuantityOf(lines, slug) + (if line.productSlug == slug then line.quantity else 0)
  {
    Totals.SumAppend(lines, [line], SlugQuantity(slug));
  }

  /** Adding increases the quantity held for the added slug by exactly `quantity` and leaves
      every other slug's quantity alone, whatever the list held before. */
  lemma {:induction false} AddLineQuantities(lines: seq<GuestLine>, slug: string, quantity: int, other: string)
    ensures QuantityOf(AddLine(lines, slug, quantity), slug) == QuantityOf(lines, slug) + quantity
    ensures other != slug ==> QuantityOf(AddLine(lines, slug, quantity), other) == QuantityOf(lines, other)
    ensures GuestCount(AddLine(lines, slug, quantity)) == GuestCount(lines) + quantity
  {
    match IndexOf(lines, slug)
    case Some(i) =>
      AddPresentQuantities(lines, slug, quantity, other, i);
    case None =>
      QuantityOfAppend(lines, GuestLine(slug, quantity), slug);
      QuantityOfAppend(lines, GuestLine(slug, quantity), other);
      Totals.SumAppend(lines, [GuestLine(slug, quantity)], GuestQuantity);
  }

  lemma AddPresentQuantities(lines: seq<GuestLine>, slug: string, quantity: int, other: string, i: nat)
    requires IndexOf(lines, slug) == Some(i)
    ensures QuantityOf(AddLine(lines, slug, quantity), slug) == QuantityOf(lines, slug) + quantity
    ensures other != slug ==> QuantityOf(AddLine(lines, slug, quantity), other) == QuantityOf(lines, other)
    ensures GuestCount(AddLine(lines, slug, quantity)) == GuestCount(lines) + quantity
  {
    var x := lines[i].(quantity := lines[i].quantity + quantity);
    assert AddLine(lines, slug, quantity) == lines[i := x];
    Totals.SumUpdate(lines, i, x, SlugQuantity(slug));
    Totals.SumUpdate(lines, i, x, SlugQuantity(other));
    Totals.SumUpdate(lines, i, x, GuestQuantity);
  }

  /** Adding an existing slug increments that line and appends nothing; adding a new slug
      appends one line at the end. Either way the list keeps one line per slug. */
  lemma AddLineKeepsUnique(lines: seq<GuestLine>, slug: string, quantity: int)
    requires Unique(lines)
    ensures Unique(AddLine(lines, slug, quantity))
    ensures IndexOf(lines, slug).Some? ==> |AddLine(lines, slug, quantity)| == |lines|
    ensures IndexOf(lines, slug).None? ==> |AddLine(lines, slug, quantity)| == |lines| + 1
  {
  }

  /** A slug that is absent is left as it is by the filter. */
  lemma RemoveAbsent(lines: seq<GuestLine>, slug: string)
    requires IndexOf(lines, slug).None?
    ensures RemoveSlug(lines, slug) == lines
  {
    RemoveNoMatch(lines, slug);
  }

  lemma {:induction false} RemoveNoMatch(lines: seq<GuestLine>, slug: string)
    requires forall j :: 0 <= j < |lines| ==> lines[j].productSlug != slug
    ensures RemoveSlug(lines, slug) == lines
  {
    if |lines| > 0 {
      var init, last := lines[..|lines| - 1], lines[|lines| - 1];
      assert last.productSlug != slug;
      assert RemoveSlug(lines, slug) == RemoveSlug(init, slug) + [last];
      RemoveNoMatch(init, slug);
      assert init + [last] == lines;
    }
  }

  /** On a list with one line per slug, removal deletes exactly the slug's line and keeps the others
      in their relative order. */
  lemma {:induction false} RemovePresent(lines: seq<GuestLine>, slug: string, i: nat)
    requires Unique(lines) && IndexOf(lines, slug) == Some(i)
    ensures RemoveSlug(lines, slug) == lines[..i] + lines[i + 1..]
    decreases |lines|
  {
    var n := |lines|;
    var init := lines[..n - 1];
    var last := lines[n - 1];
    if i == n - 1 {
      RemoveLast(lines, slug);
    } else {
      assert last.productSlug != slug by {
        assert lines[i].productSlug != lines[n - 1].productSlug;
      }
      UniqueInit(lines);
      IndexOfInit(lines, slug, i);
      RemovePresent(init, slug, i);
      SplitBeforeLast(lines, i);
      assert RemoveSlug(lines, slug) == RemoveSlug(init, slug) + [last];
    }
  }

  lemma SplitBeforeLast<T>(s: seq<T>, i: nat)
    requires i + 1 < |s|
    ensures (s[..|s| - 1][..i] + s[..|s| - 1][i + 1..]) + [s[|s| - 1]] == s[..i] + s[i + 1..]
  {
    var init := s[..|s| - 1];
    assert init[..i] == s[..i];
    assert s[i + 1..] == init[i + 1..] + [s[|s| - 1]];
  }

  lemma RemoveLast(lines: seq<GuestLine>, slug: string)
    requires IndexOf(lines, slug) == Some(|lines| - 1)
    ensures RemoveSlug(lines, slug) == lines[..|lines| - 1]
  {
    var init := lines[..|lines| - 1];
    assert IndexOf(init, slug).None?;
    RemoveAbsent(init, slug);
    assert RemoveSlug(lines, slug) == RemoveSlug(init, slug) + [];
  }

  lemma UniqueInit(lines: seq<GuestLine>)
    requires Unique(lines) && |lines| > 0
    ensures Unique(lines[..|lines| - 1])
  {
  }

  lemma IndexOfInit(lines: seq<GuestLine>, slug: string, i: nat)
    requires IndexOf(lines, slug) == Some(i) && i < |lines| - 1
    ensures IndexOf(lines[..|lines| - 1], slug) == Some(i)
  {
    var init := lines[..|lines| - 1];
    assert init[i] == lines[i];
  }

  lemma {:induction false} RemoveKeepsUnique(lines: seq<GuestLine>, slug: string)
    requires Unique(lines)
    ensures Unique(RemoveSlug(lines, slug))
    decreases |lines|
  {
    if |lines| > 0 {
      var n := |lines|;
      var init := lines[..n - 1];
      var last := lines[n - 1];
      RemoveKeepsUnique(init, slug);
      var r := RemoveSlug(lines, slug);
      var front := RemoveSlug(init, slug);
      if last.productSlug != slug {
        assert r == front + [last];
        forall i | 0 <= i < |front| ensures front[i].productSlug != last.productSlug {
          assert front[i] in front;
          var k :| 0 <= k < |init| && init[k] == front[i];
          assert lines[k] == init[k];
        }
      }
    }
  }

  /** Removal leaves no line for the slug and every other slug's quantity unchanged. */
  lemma RemoveQuantities(lines: seq<GuestLine>, slug: string, other: string)
    ensures IndexOf(RemoveSlug(lines, slug), slug).None?
    ensures QuantityOf(RemoveSlug(lines, slug), slug) == 0
    ensures other != slug ==> QuantityOf(RemoveSlug(lines, slug), other) == QuantityOf(lines, other)
  {
    var r := RemoveSlug(lines, slug);
    forall j | 0 <= j < |r| ensures r[j].productSlug != slug {
      assert r[j] in r;
    }
    QuantityOfAbsent(r, slug);
    if other != slug {
      RemoveKeepsOthers(lines, slug, other);
    }
  }

  lemma {:induction false} RemoveKeepsOthers(lines: seq<GuestLine>, slug: string, other: string)
    requires other != slug
    ensures QuantityOf(RemoveSlug(lines, slug), other) == QuantityOf(lines, other)
    decreases |lines|
  {
    if |lines| > 0 {
      var n := |lines|;
      var init := lines[..n - 1];
      var last := lines[n - 1];
      RemoveKeepsOthers(init, slug, other);
      assert lines == init + [last];
      QuantityOfAppend(init, last, other);
      if last.productSlug == slug {
        assert RemoveSlug(lines, slug) == RemoveSlug(init, slug) + [];
        assert RemoveSlug(init, slug) + [] == RemoveSlug(init, slug);
      } else {
        QuantityOfAppend(RemoveSlug(init, slug), last, other);
      }
    }
  }

  /** An update with a quantity of 0 or less is the removal of the slug. */
  lemma UpdateNonPositiveIsRemove(lines: seq<GuestLine>, slug: string, quantity: int)
    requires quantity <= 0
    ensures UpdateLine(lines, slug, quantity) == RemoveSlug(lines, slug)
  {
    if IndexOf(lines, slug).None? {
      RemoveAbsent(lines, slug);
    }
  }

  /** An update with a positive quantity overwrites only that slug's line, keeping the order and
      the length, so that the slug then holds exactly the new quantity. */
  lemma {:induction false} UpdatePositive(lines: seq<GuestLine>, slug: string, quantity: int, i: nat)
    requires Unique(lines) && IndexOf(lines, slug) == Some(i) && quantity > 0
    ensures |UpdateLine(lines, slug, quantity)| == |lines|
    ensures UpdateLine(lines, slug, quantity)[i] == GuestLine(slug, quantity)
    ensures forall j :: 0 <= j < |lines| && j != i ==> UpdateLine(lines, slug, quantity)[j] == lines[j]
    ensures QuantityOf(UpdateLine(lines, slug, quantity), slug) == quantity
    ensures Unique(UpdateLine(lines, slug, quantity))
  {
    var x := lines[i].(quantity := quantity);
    Totals.SumUpdate(lines, i, x, SlugQuantity(slug));
    QuantityOfUnique(lines, slug, i);
  }

  /** On a list with one line per slug, the quantity held for a present slug is that line's. */
  lemma {:induction false} QuantityOfUnique(lines: seq<GuestLine>, slug: string, i: nat)
    requires Unique(lines) && i < |lines| && lines[i].productSlug == slug
    ensures QuantityOf(lines, slug) == lines[i].quantity
    decreases |lines|
  {
    var n := |lines|;
    var init := lines[..n - 1];
    assert lines == init + [lines[n - 1]];
    QuantityOfAppend(init, lines[n - 1], slug);
    if i == n - 1 {
      QuantityOfAbsent(init, slug);
    } else {
      QuantityOfUnique(init, slug, i);
    }
  }

  lemma {:induction false} QuantityOfAbsent(lines: seq<GuestLine>, slug: string)
    requires forall j :: 0 <= j < |lines| ==> lines[j].productSlug != slug
    ensures QuantityOf(lines, slug) == 0
    decreases |lines|
  {
    if |lines| > 0 {
      var init := lines[..|lines| - 1];
      QuantityOfAbsent(init, slug);
      assert lines == init + [lines[|lines| - 1]];
      QuantityOfAppend(init, lines[|lines| - 1], slug);
    }
  }

  /** Setting a present slug's quantity to 0 deletes exactly one line and the slug disappears. */
  lemma SetToZeroRemovesOneLine(lines: seq<GuestLine>, slug: string)
    requires Unique(lines) && IndexOf(lines, slug).Some?
    ensures |UpdateLine(lines, slug, 0)| == |lines| - 1
    ensures IndexOf(UpdateLine(lines, slug, 0), slug).None?
  {
    RemovePresent(lines, slug, IndexOf(lines, slug).value);
    RemoveQuantities(lines, slug, slug);
  }

  // ---------------------------------------------------------------------------------------
  // Any sequence of operations keeps the store well formed
  // ---------------------------------------------------------------------------------------

  datatype GuestOp = Add(slug: string, quantity: int) | SetQuantity(slug: string, quantity: int)
                   | Remove(slug: string) | Clear

  function Apply(lines: seq<GuestLine>, op: GuestOp): seq<GuestLine> {
    match op
    case Add(s, q) => AddLine(lines, s, q)
    case SetQuantity(s, q) => UpdateLine(lines, s, q)
    case Remove(s) => RemoveSlug(lines, s)
    case Clear => []
  }

  function ApplyAll(lines: seq<GuestLine>, ops: seq<GuestOp>): seq<GuestLine>
    decreases |ops|
  {
    if ops == [] then lines else ApplyAll(Apply(lines, ops[0]), ops[1..])
  }

  /** Adds never give a quantity below 1 (every caller passes its counter, which starts at 1). */
  predicate AddsPositive(ops: seq<GuestOp>) {
    forall k :: 0 <= k < |ops| && ops[k].Add? ==> ops[k].quantity >= 1
  }

  lemma ApplyKeepsWellFormed(lines: seq<GuestLine>, op: GuestOp)
    requires Unique(lines) && Positive(lines)
    requires op.Add? ==> op.quantity >= 1
    ensures Unique(Apply(lines, op)) && Positive(Apply(lines, op))
  {
    match op
    case Add(s, q) =>
      AddLineKeepsUnique(lines, s, q);
    case SetQuantity(s, q) =>
      if q <= 0 {
        UpdateNonPositiveIsRemove(lines, s, q);
        RemoveKeepsUnique(lines, s);
        RemovedArePositive(lines, s);
      } else if IndexOf(lines, s).Some? {
        UpdatePositive(lines, s, q, IndexOf(lines, s).value);
      }
    case Remove(s) =>
      RemoveKeepsUnique(lines, s);
      RemovedArePositive(lines, s);
    case Clear =>
  }

  lemma RemovedArePositive(lines: seq<GuestLine>, slug: string)
    requires Positive(lines)
    ensures Positive(RemoveSlug(lines, slug))
  {
    var r := RemoveSlug(lines, slug);
    forall i | 0 <= i < |r| ensures r[i].quantity >= 1 {
      assert r[i] in r;
    }
  }

  /** After any sequence of add, update, remove and clear whose adds are positive, the store
      still holds at most one line per slug and only quantities of at least 1. */
  lemma {:induction false} OperationsKeepWellFormed(lines: seq<GuestLine>, ops: seq<GuestOp>)
    requires Unique(lines) && Positive(lines) && AddsPositive(ops)
    ensures Unique(ApplyAll(lines, ops)) && Positive(ApplyAll(lines, ops))
    decreases |ops|
  {
    if ops != [] {
      ApplyKeepsWellFormed(lines, ops[0]);
      assert AddsPositive(ops[1..]) by {
        forall k | 0 <= k < |ops[1..]| && ops[1..][k].Add? ensures ops[1..][k].quantity >= 1 {
          assert ops[1..][k] == ops[k + 1];
        }
      }
      OperationsKeepWellFormed(Apply(lines, ops[0]), ops[1..]);
    }
  }

  /** Adding 3 of a slug to an empty cart and then 2 more gives one line and a count of 5. */
  lemma AddTwiceMerges(slug: string)
    ensures |AddLine(AddLine([], slug, 3), slug, 2)| == 1
    ensures GuestCount(AddLine(AddLine([], slug, 3), slug, 2)) == 5
  {
    AddLineQuantities([], slug, 3, slug);
    AddLineQuantities(AddLine([], slug, 3), slug, 2, slug);
    assert GuestCount([]) == 0;
  }

  // ---------------------------------------------------------------------------------------
  // Resolving guest lines through the catalog
  // ---------------------------------------------------------------------------------------

  /** A line takes part in a catalog pass when its slug is not blank and resolves. */
  predicate Resolvable(line: GuestLine, catalog: Catalog) {
    !Blank(line.productSlug) && line.productSlug in catalog
  }

  /** The lines a guest-cart page shows: resolvable lines with their products, in guest order. */
  function ResolveLines(lines: seq<GuestLine>, catalog: Catalog): (r: seq<CartItem>)
    ensures |r| <= |lines|
  {
    if |lines| == 0 then []
    else
      var last := lines[|lines| - 1];
      ResolveLines(lines[..|lines| - 1], catalog)
        + (if Resolvable(last, catalog) then [CartItem(catalog[last.productSlug], last.quantity)] else [])
  }

  /** The batch `syncGuestCart` posts: `{ productId, quantity }` of the resolvable lines, in order. */
  function SyncItems(lines: seq<GuestLine>, catalog: Catalog): (r: seq<SyncItem>)
    ensures |r| <= |lines|
  {
    if |lines| == 0 then []
    else
      var last := lines[|lines| - 1];
      SyncItems(lines[..|lines| - 1], catalog)
        + (if Resolvable(last, catalog) then [SyncItem(catalog[last.productSlug].id, last.quantity)] else [])
  }

  /** The sync batch of a concatenation is the concatenation of the batches: lines are sent in
      guest order, and each line's fate depends on that line alone. */
  lemma {:induction false} SyncItemsAppend(a: seq<GuestLine>, b: seq<GuestLine>, catalog: Catalog)
    ensures SyncItems(a + b, catalog) == SyncItems(a, catalog) + SyncItems(b, catalog)
    decreases |b|
  {
    if |b| == 0 {
      assert a + b == a;
    } else {
      assert (a + b)[..|a + b| - 1] == a + b[..|b| - 1];
      SyncItemsAppend(a, b[..|b| - 1], catalog);
    }
  }

  /** When every line is non-blank and resolvable, the batch has one item per line, in order. */
  lemma {:induction false} SyncItemsAllResolvable(lines: seq<GuestLine>, catalog: Catalog)
    requires forall k :: 0 <= k < |lines| ==> Resolvable(lines[k], catalog)
    ensures |SyncItems(lines, catalog)| == |lines|
    ensures forall k :: 0 <= k < |lines| ==> (
      lines[k].productSlug in catalog &&
      SyncItems(lines, catalog)[k] == SyncItem(catalog[lines[k].productSlug].id, lines[k].quantity))
    decreases |lines|
  {
    if |lines| > 0 {
      SyncItemsAllResolvable(lines[..|lines| - 1], catalog);
    }
  }

  /** The ids the reconciliation posts are exactly those of the lines a guest cart page shows. */
  lemma {:induction false} SyncAgreesWithResolve(lines: seq<GuestLine>, catalog: Catalog)
    ensures |SyncItems(lines, catalog)| == |ResolveLines(lines, catalog)|
    ensures forall k :: 0 <= k < |SyncItems(lines, catalog)| ==>
      SyncItems(lines, catalog)[k]
        == SyncItem(ResolveLines(lines, catalog)[k].product.id, ResolveLines(lines, catalog)[k].quantity)
    decreases |lines|
  {
    if |lines| > 0 {
      SyncAgreesWithResolve(lines[..|lines| - 1], catalog);
    }
  }

  // ---------------------------------------------------------------------------------------
  // The loops of the source
  // ---------------------------------------------------------------------------------------

  /** `cart.find(item => item.productSlug === slug)`. */
  method FindLine(cart: seq<GuestLine>, slug: string) returns (index: Option<nat>)
    ensures index == IndexOf(cart, slug)
  {
    var i := 0;
    while i < |cart|
      invariant 0 <= i <= |cart|
      invariant forall j :: 0 <= j < i ==> cart[j].productSlug != slug
    {
      if cart[i].productSlug == slug {
        return Some(i);
      }
      i := i + 1;
    }
    return None;
  }

  /** The loop of `loadCart` and `loadGuestCart`: skip blank slugs and failed lookups, push the rest. */
  method ResolveGuestCart(guestCart: seq<GuestLine>, catalog: Catalog) returns (items: seq<CartItem>)
    ensures items == ResolveLines(guestCart, catalog)
  {
    items := [];
    for i := 0 to |guestCart|
      invariant items == ResolveLines(guestCart[..i], catalog)
    {
      var guestItem := guestCart[i];
      assert guestCart[..i + 1][..i] == guestCart[..i];
      if Blank(guestItem.productSlug) {
        continue;
      }
      if guestItem.productSlug in catalog {
        items := items + [CartItem(catalog[guestItem.productSlug], guestItem.quantity)];
      }
    }
    assert guestCart[..|guestCart|] == guestCart;
  }

  /** The loop of `syncGuestCart`: skip blank slugs and failed lookups, push `{ productId, quantity }`. */
  method CollectSyncItems(guestCart: seq<GuestLine>, catalog: Catalog) returns (items: seq<SyncItem>)
    ensures items == SyncItems(guestCart, catalog)
  {
    items := [];
    for i := 0 to |guestCart|
      invariant items == SyncItems(guestCart[..i], catalog)
    {
      var item := guestCart[i];
      assert guestCart[..i + 1][..i] == guestCart[..i];
      if Blank(item.productSlug) {
        continue;
      }
      if item.productSlug in catalog {
        items := items + [SyncItem(catalog[item.productSlug].id, item.quantity)];
      }
    }
    assert guestCart[..|guestCart|] == guestCart;
  }

  // ---------------------------------------------------------------------------------------
  // The store
  // ---------------------------------------------------------------------------------------

  /** The device storage entry "guest_cart" and the `cartService` guest operations on it. */
  class GuestCartStore {
    /** The stored list; `None` when the key is absent. */
    var stored: Option<seq<GuestLine>>

    constructor (initial: Option<seq<GuestLine>>)
      ensures stored == initial
    {
      stored := initial;
    }

    /** The list `getGuestCart()` returns. */
    function Lines(): seq<GuestLine>
      reads this
    {
      stored.GetOr([])
    }

    /** `getGuestCart`: the stored list, or the empty list when nothing is stored. */
    method GetGuestCart() returns (cart: seq<GuestLine>)
      ensures stored.None? ==> cart == []
      ensures stored.Some? ==> cart == stored.value
    {
      match stored
      case None => cart := [];
      case Some(lines) => cart := lines;
    }

    /** `addToGuestCart`: increment the slug's line, or append one; then write the list back. */
    method AddToGuestCart(productSlug: string, quantity: int := DefaultQuantity)
      modifies this
      ensures stored == Some(AddLine(old(Lines()), productSlug, quantity))
    {
      var cart := GetGuestCart();
      var existingItem := FindLine(cart, productSlug);
      match existingItem {
        case Some(i) =>
          cart := cart[i := cart[i].(quantity := cart[i].quantity + quantity)];
        case None =>
          cart := cart + [GuestLine(productSlug, quantity)];
      }
      stored := Some(cart);
    }

    /** `updateGuestCartItem`: nothing when the slug is absent; otherwise remove it for a quantity
        of 0 or less, or overwrite its quantity and write the list back. */
    method UpdateGuestCartItem(productSlug: string, quantity: int)
      modifies this
      ensures stored == StoredAfterUpdate(old(stored), productSlug, quantity)
    {
      var cart := GetGuestCart();
      var item := FindLine(cart, productSlug);
      if item.Some? {
        if quantity <= 0 {
          RemoveFromGuestCart(productSlug);
        } else {
          cart := cart[item.value := cart[item.value].(quantity := quantity)];
          stored := Some(cart);
        }
      }
    }

    /** `removeFromGuestCart`: write back the list without the slug's lines. */
    method RemoveFromGuestCart(productSlug: string)
      modifies this
      ensures stored == Some(RemoveSlug(old(Lines()), productSlug))
    {
      var cart := GetGuestCart();
      var filtered := RemoveSlug(cart, productSlug);
      stored := Some(filtered);
    }

    /** `clearGuestCart`: delete the storage key. */
    method ClearGuestCart()
      modifies this
      ensures stored == None && Lines() == []
    {
      stored := None;
    }

    /** `syncGuestCart`: post the resolvable lines to `/cart/sync`, then clear the guest cart.
        `answer` is what the POST resolves to; when it throws, the exception propagates before
        the clear, so the guest cart is left as it was. */
    method SyncGuestCart(catalog: Catalog, answer: Result<CartResponse, Thrown>)
      returns (items: seq<SyncItem>, response: Result<CartResponse, Thrown>)
      modifies this
      ensures items == SyncItems(old(Lines()), catalog)
      ensures response == answer
      ensures answer.Success? ==> stored == None
      ensures answer.Failure? ==> stored == old(stored)
    {
      var guestCart := GetGuestCart();
      items := CollectSyncItems(guestCart, catalog);
      response := answer;
      if answer.Failure? {
        return;
      }
      ClearGuestCart();
    }
  }
}
