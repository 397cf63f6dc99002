/**
 * Per-line stock verdicts (`src/hooks/useCartValidation.ts`). Each cart line is judged against
 * the stock figures carried by its own product record; nothing is fetched again.
 */
module Validation {
  import opened Wrappers
  import opened Text
  import opened Domain

  /** `CartItemValidation`. */
  datatype CartItemValidation = CartItemValidation(
    productId: string,
    productSlug: string,
    requestedQuantity: int,
    availableStock: int,
    isOutOfStock: bool,
    isInsufficientStock: bool)

  /** A line handed to the validation, whose product may be missing. */
  datatype ValidationInput = ValidationInput(product: Option<Product>, quantity: int)

  function AsInput(item: CartItem): ValidationInput {
    ValidationInput(Some(item.product), item.quantity)
  }

  /** The stock figure checked: `stockQuantity || stock || 0`. */
  function AvailableStock(p: Product): (n: int)
    ensures n == 0 <==> p.stockQuantity == 0 && p.stock == 0
    ensures p.stockQuantity != 0 ==> n == p.stockQuantity
    ensures p.stockQuantity == 0 ==> n == p.stock
  {
    if p.stockQuantity != 0 then p.stockQuantity else if p.stock != 0 then p.stock else 0
  }

  /** The identifying slug of a verdict: `slug || sku || _id`. */
  function VerdictSlug(p: Product): string {
    Or(p.slug, Or(p.sku, p.id))
  }

  /** The verdict for one line with a product. */
  function Verdict(p: Product, quantity: int): CartItemValidation {
    var available := AvailableStock(p);
    CartItemValidation(p.id, VerdictSlug(p), quantity, available, available == 0, quantity > available)
  }

  /** The verdict of the `catch` branch, with `'unknown'` standing in for missing identifiers. */
  function FallbackVerdict(line: ValidationInput): CartItemValidation {
    match line.product
    case Some(p) =>
      var available := AvailableStock(p);
      CartItemValidation(Or(p.id, "unknown"), Or(p.slug, Or(p.sku, Or(p.id, "unknown"))),
                         line.quantity, available, available == 0, line.quantity > available)
    case None =>
      CartItemValidation("unknown", "unknown", line.quantity, 0, true, line.quantity > 0)
  }

  /** A line is judged when it has a product with a non-empty `_id`. */
  predicate Judged(line: ValidationInput) {
    line.product.Some? && line.product.value.id != ""
  }

  /** The verdict list of the query: one verdict per judged line, in line order. */
  function ValidationsOf(lines: seq<ValidationInput>): (r: seq<CartItemValidation>)
    ensures |r| <= |lines|
  {
    if |lines| == 0 then []
    else
      var last := lines[|lines| - 1];
      ValidationsOf(lines[..|lines| - 1])
        + (if Judged(last) then [Verdict(last.product.value, last.quantity)] else [])
  }

  /** `validations?.some(v => v.isOutOfStock || v.isInsufficientStock)`; no verdicts yet is no issue. */
  predicate HasStockIssues(validations: Option<seq<CartItemValidation>>) {
    validations.Some? &&
    exists k :: 0 <= k < |validations.value| && (validations.value[k].isOutOfStock || validations.value[k].isInsufficientStock)
  }

  /** The query runs only for a non-empty list of lines. */
  predicate QueryEnabled(lines: seq<ValidationInput>) {
    |lines| > 0
  }

  /** The stock a line is short of: nothing left, or more requested than is left. */
  predicate ShortOfStock(line: ValidationInput) {
    Judged(line) && (AvailableStock(line.product.value) == 0 || line.quantity > AvailableStock(line.product.value))
  }

  // ---------------------------------------------------------------------------------------

  /** The verdicts of a concatenation are the verdicts of the parts, in order. */
  lemma {:induction false} ValidationsAppend(a: seq<ValidationInput>, b: seq<ValidationInput>)
    ensures ValidationsOf(a + b) == ValidationsOf(a) + ValidationsOf(b)
    decreases |b|
  {
    if |b| == 0 {
      assert a + b == a;
    } else {
      assert (a + b)[..|a + b| - 1] == a + b[..|b| - 1];
      ValidationsAppend(a, b[..|b| - 1]);
    }
  }

  /** When every line is judged there is exactly one verdict per line, at the line's position,
      which copies the requested quantity and the product id. */
  lemma {:induction false} ValidationsAllJudged(lines: seq<ValidationInput>)
    requires forall k :: 0 <= k < |lines| ==> Judged(lines[k])
    ensures |ValidationsOf(lines)| == |lines|
    ensures forall k :: 0 <= k < |lines| ==>
      Judged(lines[k]) && ValidationsOf(lines)[k] == Verdict(lines[k].product.value, lines[k].quantity)
      && ValidationsOf(lines)[k].requestedQuantity == lines[k].quantity
      && ValidationsOf(lines)[k].productId == lines[k].product.value.id
    decreases |lines|
  {
    if |lines| > 0 {
      ValidationsAllJudged(lines[..|lines| - 1]);
    }
  }

  /** The verdict list reports a stock issue exactly when some judged line is short of stock. */
  lemma {:induction false} StockIssuesIff(lines: seq<ValidationInput>)
    ensures HasStockIssues(Some(ValidationsOf(lines))) <==> exists k :: 0 <= k < |lines| && ShortOfStock(lines[k])
    decreases |lines|
  {
    if |lines| > 0 {
      var n := |lines|;
      var init := lines[..n - 1];
      var last := lines[n - 1];
      StockIssuesIff(init);
      var front := ValidationsOf(init);
      var tail := if Judged(last) then [Verdict(last.product.value, last.quantity)] else [];
      assert ValidationsOf(lines) == front + tail;
      if exists k :: 0 <= k < n && ShortOfStock(lines[k]) {
        var k :| 0 <= k < n && ShortOfStock(lines[k]);
        if k < n - 1 {
          assert init[k] == lines[k];
          var j :| 0 <= j < |front| && (front[j].isOutOfStock || front[j].isInsufficientStock);
          assert (front + tail)[j] == front[j];
        } else {
          assert (front + tail)[|front|] == tail[0];
        }
      } else {
        forall j | 0 <= j < |front + tail|
          ensures !((front + tail)[j].isOutOfStock || (front + tail)[j].isInsufficientStock)
        {
          if j < |front| {
            assert (front + tail)[j] == front[j];
            assert !HasStockIssues(Some(front)) by {
              forall k | 0 <= k < |init| ensures !ShortOfStock(init[k]) {
                assert init[k] == lines[k];
              }
            }
          } else {
            assert !ShortOfStock(lines[n - 1]);
          }
        }
      }
    }
  }

  /** 5 requested against 2 left is insufficient but not out of stock, with 2 reported available. */
  lemma InsufficientExample(p: Product)
    requires p.id != "" && p.stockQuantity == 2
    ensures Verdict(p, 5).availableStock == 2
    ensures Verdict(p, 5).isInsufficientStock && !Verdict(p, 5).isOutOfStock
  {
  }

  /** With no stock figure at all, any request of at least 1 is out of stock and insufficient. */
  lemma NoStockExample(p: Product, quantity: int)
    requires p.stockQuantity == 0 && p.stock == 0 && quantity >= 1
    ensures Verdict(p, quantity).isOutOfStock && Verdict(p, quantity).isInsufficientStock
  {
  }

  /** The `catch` branch judges stock exactly as the main branch does; it differs only in the
      identifiers it reports when they are missing. */
  lemma FallbackAgrees(line: ValidationInput)
    requires Judged(line)
    ensures FallbackVerdict(line) == Verdict(line.product.value, line.quantity)
  {
  }

  // ---------------------------------------------------------------------------------------

  /** The `queryFn` loop: skip lines without a product or `_id`, push a verdict for the rest. */
  method ValidateCartItems(items: seq<ValidationInput>) returns (validations: seq<CartItemValidation>)
    ensures validations == ValidationsOf(items)
  {
    validations := [];
    for i := 0 to |items|
      invariant validations == ValidationsOf(items[..i])
    {
      var item := items[i];
      assert items[..i + 1][..i] == items[..i];
      if item.product.None? || item.product.value.id == "" {
        continue;
      }
      var currentProduct := item.product.value;
      var availableStock := AvailableStock(currentProduct);
      validations := validations + [CartItemValidation(
        currentProduct.id, VerdictSlug(currentProduct), item.quantity,
        availableStock, availableStock == 0, item.quantity > availableStock)];
    }
    assert items[..|items|] == items;
  }
}
