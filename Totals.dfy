/**
 * Sums over carts (`reduce` folds), the subtotal, the item count and the delivery-fee rule that
 * the cart store, the cart page and the checkout page share.
 */
module Totals {
  import opened Domain

  /** One rupee in paise. */
  const PaisePerRupee := 100
  /** A subtotal of at least this many paise is delivered free. */
  const FreeDeliveryThreshold := 500 * PaisePerRupee
  /** The delivery fee below the threshold, in paise. */
  const DeliveryCharge := 50 * PaisePerRupee

  /** `s.reduce((acc, x) => acc + f(x), 0)`: a left fold, element by element. */
  function Sum<T>(s: seq<T>, f: T -> int): int {
    if |s| == 0 then 0 else Sum(s[..|s| - 1], f) + f(s[|s| - 1])
  }

  lemma {:induction false} SumAppend<T>(a: seq<T>, b: seq<T>, f: T -> int)
    ensures Sum(a + b, f) == Sum(a, f) + Sum(b, f)
    decreases |b|
  {
    if |b| > 0 {
      assert (a + b)[..|a + b| - 1] == a + b[..|b| - 1];
      SumAppend(a, b[..|b| - 1], f);
    } else {
      assert a + b == a;
    }
  }

  lemma {:induction false} SumCons<T>(x: T, s: seq<T>, f: T -> int)
    ensures Sum([x] + s, f) == f(x) + Sum(s, f)
  {
    SumAppend([x], s, f);
    assert [x][..0] == [];
  }

  lemma {:induction false} SumNonNegative<T>(s: seq<T>, f: T -> int)
    requires forall i :: 0 <= i < |s| ==> f(s[i]) >= 0
    ensures Sum(s, f) >= 0
    decreases |s|
  {
    if |s| > 0 {
      SumNonNegative(s[..|s| - 1], f);
    }
  }

  /** Replacing one element changes the sum by the difference of the two terms. */
  lemma {:induction false} SumUpdate<T>(s: seq<T>, i: nat, x: T, f: T -> int)
    requires i < |s|
    ensures Sum(s[i := x], f) == Sum(s, f) - f(s[i]) + f(x)
  {
    assert s == s[..i] + [s[i]] + s[i + 1..];
    assert s[i := x] == s[..i] + [x] + s[i + 1..];
    SumAppend(s[..i] + [s[i]], s[i + 1..], f);
    SumAppend(s[..i], [s[i]], f);
    SumAppend(s[..i] + [x], s[i + 1..], f);
    SumAppend(s[..i], [x], f);
    assert [s[i]][..0] == [] && [x][..0] == [];
  }

  function LineTotal(item: CartItem): int {
    item.product.price * item.quantity
  }

  function LineQuantity(item: CartItem): int {
    item.quantity
  }

  /** `getTotal()`: the sum of price times quantity over the lines. */
  function Subtotal(items: seq<CartItem>): (r: int)
    ensures items == [] ==> r == 0
  {
    Sum(items, LineTotal)
  }

  /** `getItemCount()`: the sum of the quantities. */
  function ItemCount(items: seq<CartItem>): (r: int)
    ensures items == [] ==> r == 0
  {
    Sum(items, LineQuantity)
  }

  /** Appending a line adds its price times quantity to the subtotal and its quantity to the count. */
  lemma SubtotalAndCountAppend(items: seq<CartItem>, item: CartItem)
    ensures Subtotal(items + [item]) == Subtotal(items) + item.product.price * item.quantity
    ensures ItemCount(items + [item]) == ItemCount(items) + item.quantity
  {
    SumAppend(items, [item], LineTotal);
    SumAppend(items, [item], LineQuantity);
  }

  /** With non-negative prices and quantities neither total is negative. */
  lemma SubtotalNonNegative(items: seq<CartItem>)
    requires forall i :: 0 <= i < |items| ==> items[i].product.price >= 0 && items[i].quantity >= 0
    ensures Subtotal(items) >= 0 && ItemCount(items) >= 0
  {
    SumNonNegative(items, LineTotal);
    SumNonNegative(items, LineQuantity);
  }

  /** `getTotal() >= 500 ? 0 : 50`, in paise. */
  function DeliveryFee(subtotal: int): (fee: int)
    ensures fee == 0 <==> subtotal >= FreeDeliveryThreshold
    ensures fee == 0 || fee == DeliveryCharge
  {
    if subtotal >= FreeDeliveryThreshold then 0 else DeliveryCharge
  }

  /** The "Add ₹N more for free delivery" hint: shown only below the threshold, with the gap. */
  function FreeDeliveryHint(subtotal: int): (gap: Wrappers.Option<int>)
    ensures gap.Some? <==> subtotal < FreeDeliveryThreshold
    ensures gap.Some? ==> gap.value > 0 && subtotal + gap.value == FreeDeliveryThreshold
  {
    if subtotal < FreeDeliveryThreshold then Wrappers.Some(FreeDeliveryThreshold - subtotal) else Wrappers.None
  }

  /** The hint is shown exactly when a fee is charged, and adding the gap makes delivery free. */
  lemma HintMatchesFee(subtotal: int)
    ensures FreeDeliveryHint(subtotal).Some? <==> DeliveryFee(subtotal) == DeliveryCharge
    ensures FreeDeliveryHint(subtotal).Some? ==> DeliveryFee(subtotal + FreeDeliveryHint(subtotal).value) == 0
  {
  }
}
