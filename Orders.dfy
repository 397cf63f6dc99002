/**
 * The order pages (`src/pages/Orders.tsx`): which screen shows, the status colour and label, the
 * short order number, and the item preview of each order in the history list.
 */
module Orders {
  import opened Wrappers
  import opened Text
  import opened Domain

  /** One line of a placed order; prices are whole currency units. */
  datatype OrderItem = OrderItem(name: string, price: int, quantity: int)

  datatype Order = Order(id: string, orderStatus: string, items: seq<OrderItem>)

  const Muted := "text-muted-foreground"

  /** `getStatusColor`: each known status has its own colour; every other status is muted. */
  function StatusColor(status: string): (r: string)
    ensures r == "text-green-600" <==> status == "delivered"
    ensures r == "text-blue-600" <==> status == "processing" || status == "shipped"
    ensures r == "text-red-600" <==> status == "cancelled"
    ensures r == Muted <==> status !in {"delivered", "processing", "shipped", "cancelled"}
  {
    match status
    case "delivered" => "text-green-600"
    case "processing" => "text-blue-600"
    case "shipped" => "text-blue-600"
    case "cancelled" => "text-red-600"
    case _ => Muted
  }

  /** `id.slice(-8)`: the last eight characters, or the whole id when it is shorter. */
  function ShortId(id: string): (r: string)
    ensures |r| == if |id| < 8 then |id| else 8
    ensures r == id[|id| - |r|..]
  {
    if |id| <= 8 then id else id[|id| - 8..]
  }

  /** The status with its first character upper-cased. */
  function StatusLabel(status: string): string {
    if |status| == 0 then "" else [UpperChar(status[0])] + status[1..]
  }

  /** The label keeps the status's length and every character after the first, and differs from
      it at most in case: lower-casing both gives the same text. */
  lemma LabelDiffersOnlyInCase(status: string)
    ensures |StatusLabel(status)| == |status|
    ensures |status| > 0 ==> StatusLabel(status)[1..] == status[1..]
    ensures Lower(StatusLabel(status)) == Lower(status)
  {
    var title := StatusLabel(status);
    var a, b := Lower(title), Lower(status);
    forall k | 0 <= k < |status| ensures a[k] == b[k] {
      if k == 0 {
        assert title[0] == UpperChar(status[0]);
      } else {
        assert title[k] == status[k];
      }
    }
  }

  /** Labelling a label changes nothing. */
  lemma LabelIdempotent(status: string)
    ensures StatusLabel(StatusLabel(status)) == StatusLabel(status)
  {
    if |status| > 0 {
      var title := StatusLabel(status);
      assert title[0] == UpperChar(status[0]);
      assert UpperChar(UpperChar(status[0])) == UpperChar(status[0]);
      assert title[1..] == status[1..];
    }
  }

  /** `price * quantity` for one line. */
  function LineTotal(item: OrderItem): int {
    item.price * item.quantity
  }

  /** The items shown on a history card: `items.slice(0, 3)`. */
  function Preview(items: seq<OrderItem>): (r: seq<OrderItem>)
    ensures |r| == if |items| < 3 then |items| else 3
    ensures r == items[..|r|]
  {
    if |items| <= 3 then items else items[..3]
  }

  /** How many items the card leaves out. */
  function Hidden(items: seq<OrderItem>): nat {
    if |items| > 3 then |items| - 3 else 0
  }

  /** The `+N more items` note, shown only when some items are left out. */
  function MoreNote(items: seq<OrderItem>): Option<string> {
    if |items| > 3 then Some("+" + IntToString(|items| - 3) + " more items") else None
  }

  /** Every item is either previewed or counted in the note, and the note appears exactly when
      some item is not previewed. */
  lemma PreviewAccountsForEveryItem(items: seq<OrderItem>)
    ensures |Preview(items)| + Hidden(items) == |items|
    ensures MoreNote(items).Some? <==> |Preview(items)| < |items|
    ensures MoreNote(items).Some? ==> MoreNote(items).value == "+" + IntToString(Hidden(items)) + " more items"
  {
  }

  /** The amount column of the preview, line by line. */
  function PreviewAmounts(items: seq<OrderItem>): (r: seq<int>)
    ensures |r| == |Preview(items)|
    ensures forall k :: 0 <= k < |r| ==> r[k] == LineTotal(items[k])
  {
    var shown := Preview(items);
    seq(|shown|, k requires 0 <= k < |shown| => LineTotal(shown[k]))
  }

  /** What the orders route shows. */
  datatype Screen = Skeleton | Detail(order: Order) | NoOrders | History(orders: seq<Order>)

  /** The skeleton while loading; the order when one was asked for and loaded; otherwise the
      history, or the empty-history prompt. */
  function ScreenOf(loading: bool, orderId: string, selected: Option<Order>, orders: seq<Order>): Screen {
    if loading then Skeleton
    else if orderId != "" && selected.Some? then Detail(selected.value)
    else if |orders| == 0 then NoOrders
    else History(orders)
  }

  /** On the detail route, an order that failed to load leaves the (never loaded, so empty)
      history prompt on screen rather than an error. */
  lemma FailedOrderShowsEmptyHistory(orderId: string)
    requires orderId != ""
    ensures ScreenOf(false, orderId, None, []) == NoOrders
  {
  }

  /** A detail screen shows exactly the order that was asked for and loaded. */
  lemma DetailOnlyWhenLoaded(loading: bool, orderId: string, selected: Option<Order>, orders: seq<Order>)
    ensures ScreenOf(loading, orderId, selected, orders).Detail? <==> !loading && orderId != "" && selected.Some?
    ensures ScreenOf(loading, orderId, selected, orders).Detail? ==>
      ScreenOf(loading, orderId, selected, orders).order == selected.value
  {
  }

  /** A failed load of a second order leaves the first one on the detail screen, under the
      second order's route. */
  lemma StaleDetailAfterFailedLoad(first: Order, otherId: string, orders: seq<Order>)
    requires otherId != "" && otherId != first.id
    ensures ScreenOf(false, otherId, Some(first), orders) == Detail(first)
  {
  }

  // ---------------------------------------------------------------------------------------

  /** The state of the orders page: the loaded history, the loaded order and the loading flag. */
  class OrdersView {
    var orders: seq<Order>
    var selected: Option<Order>
    var loading: bool

    constructor ()
      ensures orders == [] && selected.None? && loading
    {
      orders := [];
      selected := None;
      loading := true;
    }

    function ScreenFor(orderId: string): Screen
      reads this
    {
      ScreenOf(loading, orderId, selected, orders)
    }

    /** The effect on `orderId`: load that order when there is one, else the history. */
    method OnRoute(orderId: string, ordersAnswer: Result<seq<Order>, Thrown>, orderAnswer: Result<Order, Thrown>)
      modifies this
      ensures !loading
      ensures orderId != "" ==>
        orders == old(orders)
        && selected == (if orderAnswer.Success? then Some(orderAnswer.value) else old(selected))
      ensures orderId == "" ==>
        selected == old(selected)
        && orders == (if ordersAnswer.Success? then ordersAnswer.value else old(orders))
      ensures orderId != "" && orderAnswer.Success? ==> ScreenFor(orderId) == Detail(orderAnswer.value)
    {
      if orderId != "" {
        LoadOrder(orderAnswer);
      } else {
        LoadOrders(ordersAnswer);
      }
    }

    /** `loadOrders`: a failure is only logged and keeps the history there was. */
    method LoadOrders(answer: Result<seq<Order>, Thrown>)
      modifies this
      ensures !loading && selected == old(selected)
      ensures orders == if answer.Success? then answer.value else old(orders)
    {
      loading := true;
      if answer.Success? {
        orders := answer.value;
      }
      loading := false;
    }

    /** `loadOrder`: a failure is only logged and keeps the order there was. */
    method LoadOrder(answer: Result<Order, Thrown>)
      modifies this
      ensures !loading && orders == old(orders)
      ensures selected == if answer.Success? then Some(answer.value) else old(selected)
    {
      loading := true;
      if answer.Success? {
        selected := Some(answer.value);
      }
      loading := false;
    }
  }
}
